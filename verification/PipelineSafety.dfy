/** Normal return of the concurrent build means every planned item was processed. */
module PipelineSafety {
  import opened Collections
  import opened PipelineMachine
  import opened PipelineInvariant

  // -- The whole state ---------------------------------------------------------------------------

  ghost predicate FinishedUpTo(producers: seq<Producer>, n: int) {
    forall i :: 0 <= i < |producers| && i < n ==> producers[i].Finished?
  }

  ghost predicate ExitedUpTo(consumers: seq<Consumer>, n: int) {
    forall i :: 0 <= i < |consumers| && i < n ==> consumers[i].Exited?
  }

  /** After the join the queue is empty, nothing is in hand, and nobody can put. */
  ghost predicate Drained(s: State) {
    FinishedUpTo(s.producers, |s.producers|) && s.shared.unfinished == 0
  }

  ghost predicate Phases(s: State) {
    match s.main
    case Collecting(n) => n <= |s.producers| && FinishedUpTo(s.producers, n)
    case Joining => FinishedUpTo(s.producers, |s.producers|)
    case Reaping(n) => n <= |s.consumers| && Drained(s) && ExitedUpTo(s.consumers, n)
    case Assembling => Drained(s) && ExitedUpTo(s.consumers, |s.consumers|) && s.shared.flags.errors == []
    case Raised(e) => Drained(s) && ExitedUpTo(s.consumers, |s.consumers|) && s.shared.flags.errors != []
  }

  ghost predicate ThreadsOk(b: Build, s: State) {
    && (forall i :: 0 <= i < |s.producers| ==> ProducerOk(s.shared.flags.errors, s.producers[i]))
    && (forall i :: 0 <= i < |s.consumers| ==> ConsumerOk(b.k, s.shared.flags.errors, s.consumers[i]))
  }

  /** A failure is recorded, or some thread is about to record one. */
  ghost predicate Doomed(s: State) {
    || s.shared.flags.errors != []
    || (exists i :: 0 <= i < |s.producers| && s.producers[i].Throwing?)
    || (exists i :: 0 <= i < |s.consumers| && s.consumers[i].Raising?)
  }

  ghost predicate ByProducer(b: Build, s: State, job: Job) {
    exists i :: 0 <= i < |s.producers| && ProducerServes(b.plans, s.producers[i], job)
  }

  ghost predicate ByConsumer(s: State, job: Job) {
    exists i :: 0 <= i < |s.consumers| && ConsumerServes(s.consumers[i], job)
  }

  ghost predicate Tracked(b: Build, s: State, job: Job) {
    Settled(s.shared.board, job) || QueueServes(s.shared.queue, job) || ByProducer(b, s, job) || ByConsumer(s, job)
  }

  ghost predicate NoWorkLost(b: Build, s: State) {
    Doomed(s) || forall job :: Wanted(b, s.shared.board, job) ==> Tracked(b, s, job)
  }

  ghost predicate Counted(s: State) {
    s.shared.unfinished == |s.shared.queue| + Count(Holding, s.consumers)
  }

  ghost predicate Inv(b: Build, s: State) {
    && BoardOk(b, s.shared.board) && ThreadsOk(b, s) && Counted(s) && Phases(s)
    && (s.shared.flags.stop ==> Doomed(s))
    && NoWorkLost(b, s)
  }

  // -- Producer steps ------------------------------------------------------------------------------

  lemma ProducerKeeps(b: Build, s: State, i: nat)
    requires i < |s.producers| && BoardOk(b, s.shared.board) && ThreadsOk(b, s) && Counted(s) && Phases(s)
    ensures var t := WithProducer(s, i, ProducerStep(b, s.shared, s.producers[i]));
      BoardOk(b, t.shared.board) && ThreadsOk(b, t) && Counted(t) && Phases(t)
  {
    ProducerValues(b, s.shared, s.producers[i]);
    ProducerCounts(b, s.shared, s.producers[i]);
    ProducerPlaces(s, i, ProducerStep(b, s.shared, s.producers[i]));
  }

  lemma ProducerPlaces(s: State, i: nat, r: Produced)
    requires i < |s.producers| && Phases(s)
    requires s.producers[i].Finished? ==> r == Produced(s.shared, Finished)
    ensures Phases(WithProducer(s, i, r))
  {
    if s.producers[i].Finished? {
      assert s.producers[i := Finished] == s.producers;
    } else {
      assert s.main.Collecting? && s.main.next <= i;
    }
  }

  lemma ProducerDooms(b: Build, s: State, i: nat)
    requires i < |s.producers| && ThreadsOk(b, s)
    ensures var t := WithProducer(s, i, ProducerStep(b, s.shared, s.producers[i]));
      && (Doomed(s) ==> Doomed(t))
      && (t.shared.flags.stop && !s.shared.flags.stop ==> Doomed(t))
      && (t.producers[i].Throwing? ==> Doomed(t))
  {
    var r := ProducerStep(b, s.shared, s.producers[i]);
    ProducerTrace(b, s.shared, s.producers[i]);
    ProducerErrors(b, s.shared, s.producers[i]);
    DoomedAfterProducer(s, i, r);
  }

  lemma ProducerErrors(b: Build, sh: Shared, p: Producer)
    ensures sh.flags.errors != [] ==> ProducerStep(b, sh, p).shared.flags.errors != []
  {
  }

  lemma DoomedAfterProducer(s: State, i: nat, r: Produced)
    requires i < |s.producers|
    requires s.shared.flags.errors != [] || s.producers[i].Throwing? ==> r.shared.flags.errors != []
    ensures var t := WithProducer(s, i, r);
      (Doomed(s) ==> Doomed(t)) && (r.producer.Throwing? ==> Doomed(t)) && (r.shared.flags.errors != [] ==> Doomed(t))
  {
    var t := WithProducer(s, i, r);
    assert t.producers[i] == r.producer;
    if j :| 0 <= j < |s.producers| && s.producers[j].Throwing? {
      assert j != i ==> t.producers[j].Throwing?;
    }
  }

  lemma ProducerTracks(b: Build, s: State, i: nat, job: Job)
    requires i < |s.producers| && BoardOk(b, s.shared.board) && ThreadsOk(b, s)
    requires Tracked(b, s, job)
    ensures var t := WithProducer(s, i, ProducerStep(b, s.shared, s.producers[i]));
      Tracked(b, t, job) || t.producers[i].Throwing?
  {
    var p := s.producers[i];
    ProducerValues(b, s.shared, p);
    if QueueServes(s.shared.queue, job) { ProducerKeepsQueue(b, s.shared, p, job); }
    if ProducerServes(b.plans, p, job) { ProducerKeepsWork(b, s.shared, p, job); }
    TracksAfterProducer(b, s, i, ProducerStep(b, s.shared, p), job);
  }

  lemma TracksAfterProducer(b: Build, s: State, i: nat, r: Produced, job: Job)
    requires i < |s.producers| && Tracked(b, s, job)
    requires Settled(s.shared.board, job) ==> Settled(r.shared.board, job)
    requires QueueServes(s.shared.queue, job) ==> QueueServes(r.shared.queue, job)
    requires ProducerServes(b.plans, s.producers[i], job) ==>
      Settled(r.shared.board, job) || QueueServes(r.shared.queue, job) || ProducerServes(b.plans, r.producer, job) ||
          r.producer.Throwing?
    ensures Tracked(b, WithProducer(s, i, r), job) || r.producer.Throwing?
  {
    var t := WithProducer(s, i, r);
    assert t.producers[i] == r.producer;
    if ByProducer(b, s, job) {
      var j :| 0 <= j < |s.producers| && ProducerServes(b.plans, s.producers[j], job);
      assert j != i ==> t.producers[j] == s.producers[j];
    }
  }

  lemma ProducerLosesNothing(b: Build, s: State, i: nat)
    requires i < |s.producers| && Inv(b, s)
    ensures NoWorkLost(b, WithProducer(s, i, ProducerStep(b, s.shared, s.producers[i])))
  {
    var r := ProducerStep(b, s.shared, s.producers[i]);
    var t := WithProducer(s, i, r);
    ProducerDooms(b, s, i);
    if !Doomed(t) {
      forall job | Wanted(b, t.shared.board, job) ensures Tracked(b, t, job) {
        if Wanted(b, s.shared.board, job) {
          ProducerTracks(b, s, i, job);
        } else {
          ProducerOwesSubmission(b, s.shared, s.producers[i], job.tok);
          assert ProducerServes(b.plans, t.producers[i], job);
        }
      }
    }
  }

  // -- Consumer steps ------------------------------------------------------------------------------

  lemma ConsumerKeeps(b: Build, s: State, i: nat)
    requires i < |s.consumers| && BoardOk(b, s.shared.board) && ThreadsOk(b, s) && Counted(s) && Phases(s)
    ensures var t := WithConsumer(s, i, ConsumerStep(b, s.shared, s.producersDone, s.consumers[i]));
      BoardOk(b, t.shared.board) && ThreadsOk(b, t) && Counted(t) && Phases(t)
  {
    var c := s.consumers[i];
    var r := ConsumerStep(b, s.shared, s.producersDone, c);
    ConsumerValues(b, s.shared, s.producersDone, c);
    ConsumerCounts(b, s.shared, s.producersDone, c);
    CountUpdate(Holding, s.consumers, i, r.consumer);
    CountZero(Holding, s.consumers);
    ConsumerPlaces(s, i, r);
  }

  lemma ConsumerPlaces(s: State, i: nat, r: Consumed)
    requires i < |s.consumers| && Phases(s) && Counted(s)
    requires s.consumers[i].Exited? ==> r == Consumed(s.shared, Exited)
    requires s.shared.queue == [] && !Holding(s.consumers[i]) ==> r.shared == s.shared
    ensures Phases(WithConsumer(s, i, r))
  {
    CountZero(Holding, s.consumers);
    if s.consumers[i].Exited? {
      assert s.consumers[i := Exited] == s.consumers;
    }
  }

  lemma ConsumerErrors(b: Build, sh: Shared, done: bool, c: Consumer)
    ensures sh.flags.errors != [] ==> ConsumerStep(b, sh, done, c).shared.flags.errors != []
  {
  }

  lemma DoomedAfterConsumer(s: State, i: nat, r: Consumed)
    requires i < |s.consumers|
    requires s.shared.flags.errors != [] || s.consumers[i].Raising? ==> r.shared.flags.errors != []
    ensures var t := WithConsumer(s, i, r);
      (Doomed(s) ==> Doomed(t)) && (r.consumer.Raising? ==> Doomed(t)) && (r.shared.flags.errors != [] ==> Doomed(t))
  {
    var t := WithConsumer(s, i, r);
    assert t.consumers[i] == r.consumer;
    if j :| 0 <= j < |s.consumers| && s.consumers[j].Raising? {
      assert j != i ==> t.consumers[j].Raising?;
    }
  }

  lemma ConsumerDooms(b: Build, s: State, i: nat)
    requires i < |s.consumers| && ThreadsOk(b, s)
    ensures var t := WithConsumer(s, i, ConsumerStep(b, s.shared, s.producersDone, s.consumers[i]));
      && (Doomed(s) ==> Doomed(t))
      && (t.shared.flags.stop && !s.shared.flags.stop ==> Doomed(t))
      && (t.consumers[i].Raising? ==> Doomed(t))
  {
    var r := ConsumerStep(b, s.shared, s.producersDone, s.consumers[i]);
    ConsumerTrace(b, s.shared, s.producersDone, s.consumers[i]);
    ConsumerErrors(b, s.shared, s.producersDone, s.consumers[i]);
    DoomedAfterConsumer(s, i, r);
  }

  lemma TracksAfterConsumer(b: Build, s: State, i: nat, r: Consumed, job: Job)
    requires i < |s.consumers| && Tracked(b, s, job) && !s.shared.flags.stop
    requires Settled(s.shared.board, job) ==> Settled(r.shared.board, job)
    requires QueueServes(s.shared.queue, job) ==> QueueServes(r.shared.queue, job) || ConsumerServes(r.consumer, job)
    requires ConsumerServes(s.consumers[i], job) ==>
      Settled(r.shared.board, job) || ConsumerServes(r.consumer, job) || r.consumer.Raising?
    ensures Tracked(b, WithConsumer(s, i, r), job) || r.consumer.Raising?
  {
    var t := WithConsumer(s, i, r);
    assert t.consumers[i] == r.consumer;
    if ByConsumer(s, job) {
      var j :| 0 <= j < |s.consumers| && ConsumerServes(s.consumers[j], job);
      assert j != i ==> t.consumers[j] == s.consumers[j];
    }
    if ByProducer(b, s, job) {
      var j :| 0 <= j < |s.producers| && ProducerServes(b.plans, s.producers[j], job);
      assert t.producers[j] == s.producers[j];
    }
  }

  lemma ConsumerTracks(b: Build, s: State, i: nat, job: Job)
    requires i < |s.consumers| && BoardOk(b, s.shared.board) && ThreadsOk(b, s) && !s.shared.flags.stop
    requires Tracked(b, s, job)
    ensures var t := WithConsumer(s, i, ConsumerStep(b, s.shared, s.producersDone, s.consumers[i]));
      Tracked(b, t, job) || t.consumers[i].Raising?
  {
    var c := s.consumers[i];
    ConsumerValues(b, s.shared, s.producersDone, c);
    if QueueServes(s.shared.queue, job) { ConsumerKeepsQueue(b, s.shared, s.producersDone, c, job); }
    if ConsumerServes(c, job) { ConsumerKeepsWork(b, s.shared, s.producersDone, c, job); }
    TracksAfterConsumer(b, s, i, ConsumerStep(b, s.shared, s.producersDone, c), job);
  }

  lemma ConsumerLosesNothing(b: Build, s: State, i: nat)
    requires i < |s.consumers| && Inv(b, s)
    ensures NoWorkLost(b, WithConsumer(s, i, ConsumerStep(b, s.shared, s.producersDone, s.consumers[i])))
  {
    var t := WithConsumer(s, i, ConsumerStep(b, s.shared, s.producersDone, s.consumers[i]));
    ConsumerDooms(b, s, i);
    if !Doomed(t) {
      ConsumerTrace(b, s.shared, s.producersDone, s.consumers[i]);
      forall job | Wanted(b, t.shared.board, job) ensures Tracked(b, t, job) {
        assert Wanted(b, s.shared.board, job);
        ConsumerTracks(b, s, i, job);
      }
    }
  }

  // -- Other steps ---------------------------------------------------------------------------------

  lemma FaultKeeps(b: Build, s: State, step: Action)
    requires (step.ProducerFault? || step.ConsumerFault?) && Enabled(b, s, step) && Inv(b, s)
    ensures Inv(b, Do(b, s, step))
  {
    var t := Do(b, s, step);
    if step.ProducerFault? {
      ProducerPlaces(s, step.i, Produced(s.shared, Throwing(Failed)));
      assert t.producers[step.i].Throwing?;
    } else {
      CountUpdate(Holding, s.consumers, step.i, Raising(Failed));
      ConsumerPlaces(s, step.i, Consumed(s.shared, Raising(Failed)));
      assert t.consumers[step.i].Raising?;
    }
  }

  lemma EnvironmentKeeps(b: Build, s: State, step: Action)
    requires (step.Cancel? || step.RememberValid? || step.RememberDigest?) && Inv(b, s)
    ensures Inv(b, s.(shared := Environment(b, s.shared, step)))
  {
    var t := s.(shared := Environment(b, s.shared, step));
    assert Doomed(s) <==> Doomed(t);
    if !Doomed(t) {
      forall job | Wanted(b, t.shared.board, job) ensures Tracked(b, t, job) {
        assert Wanted(b, s.shared.board, job) && Tracked(b, s, job);
        assert Settled(s.shared.board, job) ==> Settled(t.shared.board, job);
        assert ByProducer(b, t, job) == ByProducer(b, s, job);
        assert ByConsumer(t, job) == ByConsumer(s, job);
      }
    }
  }

  lemma AdvanceKeeps(b: Build, s: State)
    requires CanAdvance(s) && Inv(b, s)
    ensures Inv(b, DoAdvance(s))
  {
    var t := DoAdvance(s);
    assert Doomed(s) <==> Doomed(t);
    AdvancePhases(s);
    AdvanceLosesNothing(b, s);
  }

  lemma AdvancePhases(s: State)
    requires CanAdvance(s) && Phases(s) && Counted(s)
    ensures Phases(DoAdvance(s)) && Counted(DoAdvance(s))
  {
  }

  lemma AdvanceLosesNothing(b: Build, s: State)
    requires CanAdvance(s) && NoWorkLost(b, s)
    ensures NoWorkLost(b, DoAdvance(s))
  {
    var t := DoAdvance(s);
    assert Doomed(s) <==> Doomed(t);
    if !Doomed(t) {
      forall job | Wanted(b, t.shared.board, job) ensures Tracked(b, t, job) {
        assert Tracked(b, s, job);
        AdvanceTracks(b, s, job);
      }
    }
  }

  lemma AdvanceTracks(b: Build, s: State, job: Job)
    requires CanAdvance(s) && Tracked(b, s, job)
    ensures Tracked(b, DoAdvance(s), job)
  {
    var t := DoAdvance(s);
    assert ByProducer(b, t, job) == ByProducer(b, s, job);
    assert ByConsumer(t, job) == ByConsumer(s, job);
  }

  /** Every step, of whatever thread, keeps the invariant. */
  lemma StepKeeps(b: Build, s: State, step: Action)
    requires Enabled(b, s, step) && Inv(b, s)
    ensures Inv(b, Do(b, s, step))
  {
    match step
    case Produce(i) =>
      ProducerKeeps(b, s, i);
      ProducerDooms(b, s, i);
      ProducerLosesNothing(b, s, i);
    case ProducerFault(_) => FaultKeeps(b, s, step);
    case Consume(i) =>
      ConsumerKeeps(b, s, i);
      ConsumerDooms(b, s, i);
      ConsumerLosesNothing(b, s, i);
    case ConsumerFault(_) => FaultKeeps(b, s, step);
    case Advance => AdvanceKeeps(b, s);
    case _ => EnvironmentKeeps(b, s, step);
  }
}
