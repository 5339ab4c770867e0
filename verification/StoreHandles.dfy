/** The life of a pin: made by one opening call, released by that call alone, or reaped with its dead process. */
module StoreHandles {
  import opened Options
  import opened StoreDisk
  import opened StoreMachine
  import opened StoreInvariant
  import opened StoreSteps
  import opened StoreTheorems

  function HeldPins(p: Phase): set<nat> {
    match p
    case Pinned(_, pin, _) => {pin}
    case Holding(_, pin, _, _) => {pin}
    case _ => {}
  }

  /** Call `a` goes from having chosen a generation to having pinned it. */
  predicate Makes(s: State, t: State, a: nat, pin: nat) {
    && a in s.actors && s.actors[a].phase.Bound?
    && a in t.actors && t.actors[a].phase.Pinned? && t.actors[a].phase.pin == pin
  }

  /** Call `a` takes a step of its own and no longer has the pin: it closes its handle, or its generation is missing. */
  ghost predicate LetsGo(level: Level, s: State, t: State, a: nat, pin: nat) {
    && a in s.actors && pin in HeldPins(s.actors[a].phase) && t == Do(level, s, OpenStep(a))
    && (a in t.actors ==> pin !in HeldPins(t.actors[a].phase))
  }

  /** A collector reaps the pin of a dead process. */
  ghost predicate Reaps(level: Level, s: State, t: State, a: nat, choice: set<nat>, pin: nat) {
    && a in s.actors && s.actors[a].phase.Collecting? && s.actors[a].phase.stage == HeadRead
    && pin in choice && pin in s.pins && s.pins[pin].pid !in s.alive
    && Enabled(level, s, GcStep(a, choice)) && t == Do(level, s, GcStep(a, choice))
  }

  ghost predicate Released(level: Level, s: State, t: State, pin: nat) {
    || (exists a :: LetsGo(level, s, t, a, pin))
    || (exists a, choice :: Reaps(level, s, t, a, choice, pin))
  }

  ghost predicate Made(s: State, t: State, pin: nat) {
    exists a :: Makes(s, t, a, pin)
  }

  ghost predicate MadeAt(run: seq<State>, i: nat, pin: nat) {
    i + 1 < |run| && Made(run[i], run[i + 1], pin)
  }

  ghost predicate ReleasedAt(level: Level, run: seq<State>, i: nat, pin: nat) {
    i + 1 < |run| && Released(level, run[i], run[i + 1], pin)
  }

  // -- One step --------------------------------------------------------------------------------------

  /** A pin that appears was made by a call. */
  lemma AppearsMade(level: Level, s: State, step: Step, pin: nat) returns (a: nat)
    requires Inv(level, s) && Enabled(level, s, step) && pin !in s.pins && pin in Do(level, s, step).pins
    ensures Makes(s, Do(level, s, step), a, pin) && pin == s.nextPin
    ensures Do(level, s, step).pins[pin].owner == a && a in s.actors
  {
    a := if step.OpenStep? then step.actor else 0;
    match step
    case PubStep(b) => PubPinFrame(level, s, b);
    case GcStep(b, choice) => GcFrame(level, s, b, choice);
    case OpenStep(b) => OpenMakes(s, b, pin);
    case _ =>
  }

  lemma OpenMakes(s: State, a: nat, pin: nat)
    requires a in s.actors && OpenEnabled(s, s.actors[a].phase)
    requires pin !in s.pins && pin in DoOpen(s, a).pins
    ensures Makes(s, DoOpen(s, a), a, pin) && pin == s.nextPin && DoOpen(s, a).pins[pin].owner == a
  {
  }

  /** A pin that goes was released. */
  lemma GoesReleased(level: Level, s: State, step: Step, pin: nat)
    requires Inv(level, s) && Enabled(level, s, step) && pin in s.pins && pin !in Do(level, s, step).pins
    ensures Released(level, s, Do(level, s, step), pin)
  {
    match step
    case PubStep(b) => PubPinFrame(level, s, b);
    case GcStep(b, choice) =>
      GcFrame(level, s, b, choice);
      assert Reaps(level, s, Do(level, s, step), b, choice, pin);
    case OpenStep(b) =>
      OpenLetsGo(s, b, pin);
      assert LetsGo(level, s, Do(level, s, step), b, pin);
    case _ =>
  }

  lemma OpenLetsGo(s: State, a: nat, pin: nat)
    requires a in s.actors && OpenEnabled(s, s.actors[a].phase)
    requires pin in s.pins && pin !in DoOpen(s, a).pins
    ensures pin in HeldPins(s.actors[a].phase)
    ensures a in DoOpen(s, a).actors ==> pin !in HeldPins(DoOpen(s, a).actors[a].phase)
  {
  }

  /** A released pin is gone, and was there before. */
  lemma ReleasedGoes(level: Level, s: State, t: State, pin: nat)
    requires Inv(level, s) && Released(level, s, t, pin)
    ensures pin in s.pins && pin !in t.pins
  {
    if a :| LetsGo(level, s, t, a, pin) {
      LetGoGoes(level, s, t, a, pin);
    } else {
      var a, choice :| Reaps(level, s, t, a, choice, pin);
      GcFrame(level, s, a, choice);
    }
  }

  lemma LetGoGoes(level: Level, s: State, t: State, a: nat, pin: nat)
    requires a in s.actors && ActorInv(level, s, a) && LetsGo(level, s, t, a, pin)
    ensures pin in s.pins && pin !in t.pins
  {
    LettingGo(s, a, pin);
  }

  lemma LettingGo(s: State, a: nat, pin: nat)
    requires a in s.actors && pin in HeldPins(s.actors[a].phase)
    requires a in DoOpen(s, a).actors ==> pin !in HeldPins(DoOpen(s, a).actors[a].phase)
    ensures DoOpen(s, a).pins == s.pins - {pin}
  {
  }

  /** Closing a handle releases its pin and nothing else. */
  lemma CloseReleases(s: State, a: nat)
    requires a in s.actors && s.actors[a].phase.Holding?
    ensures var t := DoOpen(s, a); a !in t.actors && t.pins == s.pins - HeldPins(s.actors[a].phase)
    ensures var t := DoOpen(s, a); t.disk == s.disk && t.actors == s.actors - {a}
  {
  }

  /** A collector reaps only listed pins: one on a generation with seven digits stays, its process dead or alive. */
  lemma SevenDigitPinsStay(level: Level, s: State, a: nat, choice: set<nat>, pin: nat)
    requires Enabled(level, s, GcStep(a, choice)) && pin in s.pins && s.pins[pin].gen >= 1_000_000
    ensures pin in Do(level, s, GcStep(a, choice)).pins
  {
    GcFrame(level, s, a, choice);
  }

  // -- Whole runs --------------------------------------------------------------------------------------

  /** At any moment of any run exactly those pins are there that a call has made, no step of that call has let go,
      and no collector has reaped. */
  lemma {:induction false} PinsAreExact(level: Level, run: seq<State>, j: nat, pin: nat)
    requires IsRun(level, run) && j < |run|
    ensures pin in run[j].pins <==>
      (exists i: nat :: i < j && MadeAt(run, i, pin)) && forall k: nat :: k < j ==> !ReleasedAt(level, run, k, pin)
    decreases j
  {
    if j > 0 {
      var last: nat := j - 1;
      PinsAreExact(level, run, last, pin);
      PinsExactOnce(level, run, last, pin);
      if MadeAt(run, last, pin) {
        NotReleasedBefore(level, run, last, pin);
      }
    }
  }

  lemma PinsExactOnce(level: Level, run: seq<State>, i: nat, pin: nat)
    requires IsRun(level, run) && i + 1 < |run|
    ensures pin in run[i + 1].pins <==> (pin in run[i].pins || MadeAt(run, i, pin)) && !ReleasedAt(level, run, i, pin)
    ensures MadeAt(run, i, pin) ==> pin == run[i].nextPin
  {
    MadeIsNew(level, run, i, pin);
    ReleasedIsGone(level, run, i, pin);
    StepOnPins(level, run, i, pin);
  }

  lemma MadeIsNew(level: Level, run: seq<State>, i: nat, pin: nat)
    requires IsRun(level, run) && i + 1 < |run|
    ensures MadeAt(run, i, pin) ==> pin == run[i].nextPin && pin !in run[i].pins && pin in run[i + 1].pins
  {
    if MadeAt(run, i, pin) {
      var a :| Makes(run[i], run[i + 1], a, pin);
      var step := NextStep(level, run, i);
      OnlyOpeningMakes(level, run[i], step, a, pin);
      PinsAreNumbered(level, run, i);
      MakingMakes(run[i], a);
    }
  }

  lemma MakingMakes(s: State, a: nat)
    requires a in s.actors && s.actors[a].phase.Bound?
    ensures s.nextPin in DoOpen(s, a).pins
    ensures DoOpen(s, a).pins[s.nextPin] ==
      Pin(s.actors[a].phase.gen, s.actors[a].pid, a, HeadOf(s.disk.head.now) == Some(s.actors[a].phase.gen))
  {
  }

  lemma ReleasedIsGone(level: Level, run: seq<State>, i: nat, pin: nat)
    requires IsRun(level, run) && i + 1 < |run|
    ensures ReleasedAt(level, run, i, pin) ==> pin in run[i].pins && pin !in run[i + 1].pins
  {
    if ReleasedAt(level, run, i, pin) {
      RunInv(level, run, i);
      ReleasedGoes(level, run[i], run[i + 1], pin);
    }
  }

  lemma StepOnPins(level: Level, run: seq<State>, i: nat, pin: nat)
    requires IsRun(level, run) && i + 1 < |run|
    ensures pin in run[i].pins && pin !in run[i + 1].pins ==> ReleasedAt(level, run, i, pin)
    ensures pin !in run[i].pins && pin in run[i + 1].pins ==> MadeAt(run, i, pin)
  {
    var step := NextStep(level, run, i);
    if pin in run[i].pins && pin !in run[i + 1].pins {
      GoesReleased(level, run[i], step, pin);
    }
    if pin !in run[i].pins && pin in run[i + 1].pins {
      var a := AppearsMade(level, run[i], step, pin);
    }
  }

  lemma OnlyOpeningMakes(level: Level, s: State, step: Step, a: nat, pin: nat)
    requires Inv(level, s) && Enabled(level, s, step) && Makes(s, Do(level, s, step), a, pin)
    ensures step == OpenStep(a) && pin == s.nextPin
  {
    match step
    case PubStep(b) => PubFrame(level, s, b);
    case GcStep(b, choice) => GcKeepsOpeners(level, s, b, choice);
    case OpenStep(b) => OpenFrame(s, b);
    case StartPublish(_, _, _) => ActorNumbered(level, s, a);
    case StartCollect(_, _, _) => ActorNumbered(level, s, a);
    case StartOpen(_, _) => ActorNumbered(level, s, a);
    case _ =>
  }

  lemma GcKeepsOpeners(level: Level, s: State, b: nat, choice: set<nat>)
    requires b in s.actors && s.actors[b].phase.Collecting? && GcEnabled(s, s.actors[b].phase, choice)
    ensures forall a :: a in s.actors && !s.actors[a].phase.Collecting? && a in DoGc(level, s, b, choice).actors ==>
      DoGc(level, s, b, choice).actors[a] == s.actors[a]
  {
    GcFrame(level, s, b, choice);
  }

  lemma NotReleasedBefore(level: Level, run: seq<State>, i: nat, pin: nat)
    requires IsRun(level, run) && i + 1 < |run| && MadeAt(run, i, pin)
    ensures forall k: nat :: k < i ==> !ReleasedAt(level, run, k, pin)
  {
    PinsExactOnce(level, run, i, pin);
    forall k: nat | k < i ensures !ReleasedAt(level, run, k, pin) {
      if ReleasedAt(level, run, k, pin) {
        RunInv(level, run, k);
        ReleasedGoes(level, run[k], run[k + 1], pin);
        NextPinGrows(level, run, k, i);
      }
    }
  }

  // -- Whose pins --------------------------------------------------------------------------------------

  /** Pins carry the number of their call, and a call in progress has no pin but the one its phase names. */
  ghost predicate Owned(s: State) {
    && (forall pin :: pin in s.pins ==> s.pins[pin].owner < s.nextActor)
    && (forall pin :: pin in s.pins && s.pins[pin].owner in s.actors ==>
          pin in HeldPins(s.actors[s.pins[pin].owner].phase))
  }

  /** A pin keeps its record through a step; who owns it either keeps its phase or steps itself. */
  lemma StepOwns(level: Level, s: State, step: Step)
    requires Inv(level, s) && Enabled(level, s, step) && Owned(s)
    ensures Owned(Do(level, s, step))
  {
    var t := Do(level, s, step);
    NumbersGrow(level, s, step);
    forall pin | pin in t.pins
      ensures t.pins[pin].owner < t.nextActor
      ensures t.pins[pin].owner in t.actors ==> pin in HeldPins(t.actors[t.pins[pin].owner].phase)
    {
      if pin in s.pins {
        PinsOnlyAppear(level, s, step);
        KeepsOwner(level, s, step, pin);
      } else {
        var a := AppearsMade(level, s, step, pin);
        ActorNumbered(level, s, a);
      }
    }
  }

  lemma NumbersGrow(level: Level, s: State, step: Step)
    requires Inv(level, s) && Enabled(level, s, step)
    ensures s.nextActor <= Do(level, s, step).nextActor
    ensures forall a :: a in Do(level, s, step).actors && a < s.nextActor ==> a in s.actors
  {
    match step
    case PubStep(b) =>
      PubFrame(level, s, b);
      PubNumbers(level, s, b);
    case GcStep(b, choice) => GcFrame(level, s, b, choice);
    case OpenStep(b) => OpenFrame(s, b);
    case _ =>
  }

  lemma PubNumbers(level: Level, s: State, b: nat)
    requires b in s.actors && s.actors[b].phase.Publishing? && PubEnabled(level, s, b, s.actors[b].phase)
    ensures DoPub(level, s, b).nextActor == s.nextActor
  {
  }

  lemma KeepsOwner(level: Level, s: State, step: Step, pin: nat)
    requires Inv(level, s) && Enabled(level, s, step) && Owned(s)
    requires pin in s.pins && pin in Do(level, s, step).pins && Do(level, s, step).pins[pin] == s.pins[pin]
    ensures var t, a := Do(level, s, step), s.pins[pin].owner; a in t.actors ==> pin in HeldPins(t.actors[a].phase)
  {
    var a := s.pins[pin].owner;
    if a in Do(level, s, step).actors {
      NumbersGrow(level, s, step);
      assert ActorInv(level, s, a);
      if step == OpenStep(a) {
        KeepsHeldPin(s, a, pin);
      } else {
        ReaderUnmoved(level, s, step, a);
      }
    }
  }

  lemma KeepsHeldPin(s: State, a: nat, pin: nat)
    requires a in s.actors && pin in HeldPins(s.actors[a].phase) && pin in DoOpen(s, a).pins && a in DoOpen(s, a).actors
    ensures pin in HeldPins(DoOpen(s, a).actors[a].phase)
  {
  }

  /** Only its own steps move a reader. */
  lemma ReaderUnmoved(level: Level, s: State, step: Step, a: nat)
    requires Inv(level, s) && Enabled(level, s, step) && step != OpenStep(a)
    requires a in s.actors && a in Do(level, s, step).actors
    requires !s.actors[a].phase.Publishing? && !s.actors[a].phase.Collecting?
    ensures Do(level, s, step).actors[a] == s.actors[a]
  {
    match step
    case PubStep(b) => PubKeepsReader(level, s, b, a);
    case GcStep(b, choice) => GcKeepsOpeners(level, s, b, choice);
    case OpenStep(b) => OpenFrame(s, b);
    case StartPublish(_, _, _) => ActorNumbered(level, s, a);
    case StartCollect(_, _, _) => ActorNumbered(level, s, a);
    case StartOpen(_, _) => ActorNumbered(level, s, a);
    case _ =>
  }

  lemma PubKeepsReader(level: Level, s: State, b: nat, a: nat)
    requires b in s.actors && s.actors[b].phase.Publishing? && PubEnabled(level, s, b, s.actors[b].phase)
    requires a in s.actors && !s.actors[a].phase.Publishing? && a in DoPub(level, s, b).actors
    ensures DoPub(level, s, b).actors[a] == s.actors[a]
  {
    PubFrame(level, s, b);
  }

  lemma {:induction false} RunOwns(level: Level, run: seq<State>, i: nat)
    requires IsRun(level, run) && i < |run|
    ensures Owned(run[i])
  {
    if i > 0 {
      RunOwns(level, run, i - 1);
      var step := NextStep(level, run, i - 1);
      StepOwns(level, run[i - 1], step);
    }
  }

  // -- Closing ---------------------------------------------------------------------------------------

  /** In step `j` the call `a`, which had a handle, closes it. */
  ghost predicate ClosedAt(level: Level, run: seq<State>, j: nat, a: nat) {
    && j + 1 < |run| && a in run[j].actors && run[j].actors[a].phase.Holding?
    && run[j + 1] == Do(level, run[j], OpenStep(a))
  }

  predicate HasNoPin(s: State, a: nat) {
    forall pin :: pin in s.pins ==> s.pins[pin].owner != a
  }

  /** Opening a handle and closing it leaves exactly the pins of the other calls, and no pin of this call ever again. */
  lemma {:induction false} ClosedHandleLeavesNoPin(level: Level, run: seq<State>, j: nat, k: nat, a: nat)
    requires IsRun(level, run) && ClosedAt(level, run, j, a) && j < k < |run|
    ensures forall pin :: pin in run[j + 1].pins <==> pin in run[j].pins && run[j].pins[pin].owner != a
    ensures HasNoPin(run[k], a)
    ensures a !in run[k].actors && a < run[k].nextActor
    decreases k
  {
    RunOwns(level, run, j);
    RunInv(level, run, j);
    CloseTakesOwn(level, run[j], a);
    if j + 1 < k {
      ClosedHandleLeavesNoPin(level, run, j, k - 1, a);
      NeverAgain(level, run, k - 1, a);
    }
  }

  lemma CloseTakesOwn(level: Level, s: State, a: nat)
    requires a in s.actors && s.actors[a].phase.Holding? && ActorInv(level, s, a) && Owned(s)
    ensures var t := DoOpen(s, a);
      && (forall pin :: pin in t.pins <==> pin in s.pins && s.pins[pin].owner != a)
      && (forall pin :: pin in t.pins ==> t.pins[pin] == s.pins[pin])
      && a !in t.actors && a < t.nextActor
  {
    CloseReleases(s, a);
  }

  lemma NeverAgain(level: Level, run: seq<State>, i: nat, a: nat)
    requires IsRun(level, run) && i + 1 < |run| && a !in run[i].actors && a < run[i].nextActor
    requires HasNoPin(run[i], a)
    ensures HasNoPin(run[i + 1], a)
    ensures a !in run[i + 1].actors && a < run[i + 1].nextActor
  {
    var step := NextStep(level, run, i);
    NumbersGrow(level, run[i], step);
    PinsOnlyAppear(level, run[i], step);
    PinsAreNumbered(level, run, i);
    var t := run[i + 1];
    forall pin | pin in t.pins ensures t.pins[pin].owner != a {
      if pin !in run[i].pins {
        var b := AppearsMade(level, run[i], step, pin);
      }
    }
  }

  // -- Abandoned pins ----------------------------------------------------------------------------------

  /** The call `a` ends without a step of its own: it is given up, its process dies, or the machine crashes. */
  ghost predicate Abandons(level: Level, s: State, t: State, a: nat) {
    && a in s.actors && a !in t.actors
    && exists step :: Enabled(level, s, step) && t == Do(level, s, step)
         && (step == Abort(a) || step == Kill(s.actors[a].pid) || step.OsCrash?)
  }

  /** A pin whose call is over was left by a call that was abandoned while it had that pin. */
  lemma {:induction false} OnlyAbandonedPinsStay(level: Level, run: seq<State>, i: nat, pin: nat) returns (k: nat)
    requires IsRun(level, run) && i < |run| && pin in run[i].pins && run[i].pins[pin].owner !in run[i].actors
    ensures k < i && Abandons(level, run[k], run[k + 1], run[i].pins[pin].owner)
    ensures pin in HeldPins(run[k].actors[run[i].pins[pin].owner].phase)
  {
    var a := run[i].pins[pin].owner;
    if i == 0 {
      assert false;
    } else {
      var step := NextStep(level, run, i - 1);
      OwnerBefore(level, run, i - 1, step, pin);
      if a in run[i - 1].actors {
        RunOwns(level, run, i - 1);
        EndsAbandoned(level, run[i - 1], step, a, pin);
        k := i - 1;
      } else {
        k := OnlyAbandonedPinsStay(level, run, i - 1, pin);
      }
    }
  }

  lemma OwnerBefore(level: Level, run: seq<State>, i: nat, step: Step, pin: nat)
    requires IsRun(level, run) && i + 1 < |run| && pin in run[i + 1].pins
    requires Inv(level, run[i]) && Enabled(level, run[i], step) && run[i + 1] == Do(level, run[i], step)
    requires run[i + 1].pins[pin].owner !in run[i + 1].actors
    ensures pin in run[i].pins && run[i].pins[pin] == run[i + 1].pins[pin]
  {
    if pin in run[i].pins {
      PinsOnlyAppear(level, run[i], step);
    } else {
      var a := AppearsMade(level, run[i], step, pin);
      assert false;
    }
  }

  lemma EndsAbandoned(level: Level, s: State, step: Step, a: nat, pin: nat)
    requires Inv(level, s) && Enabled(level, s, step) && a in s.actors && pin in HeldPins(s.actors[a].phase)
    requires a !in Do(level, s, step).actors && pin in Do(level, s, step).pins
    ensures Abandons(level, s, Do(level, s, step), a)
  {
    match step
    case PubStep(b) => PubKeepsReaders(level, s, b, a);
    case GcStep(b, choice) => GcFrame(level, s, b, choice);
    case OpenStep(b) => OpenEnds(s, b, a, pin);
    case _ =>
  }

  lemma PubKeepsReaders(level: Level, s: State, b: nat, a: nat)
    requires b in s.actors && s.actors[b].phase.Publishing? && PubEnabled(level, s, b, s.actors[b].phase)
    requires a in s.actors && !s.actors[a].phase.Publishing?
    ensures a in DoPub(level, s, b).actors
  {
  }

  lemma OpenEnds(s: State, b: nat, a: nat, pin: nat)
    requires b in s.actors && OpenEnabled(s, s.actors[b].phase)
    requires a in s.actors && pin in HeldPins(s.actors[a].phase)
    ensures a in DoOpen(s, b).actors || pin !in DoOpen(s, b).pins
  {
  }

  // -- What was asked for --------------------------------------------------------------------------------

  /** The phases of a call that was asked to open `target`: a call on HEAD may start over, one on a given generation
      stays with it. */
  predicate Asked(target: Option<nat>, p: Phase) {
    match target
    case None =>
      p == Opening(None) || (p.Bound? && p.viaHead) || (p.Pinned? && p.viaHead) || (p.Holding? && p.committed)
    case Some(g) =>
      p == Opening(Some(g)) || p == Bound(g, false) || (p.Pinned? && p.gen == g && !p.viaHead)
      || (p.Holding? && p.gen == g)
  }

  /** In step `j` the call ends by a step of its own. */
  ghost predicate Returns(level: Level, run: seq<State>, j: nat, a: nat) {
    && j + 1 < |run| && Enabled(level, run[j], OpenStep(a))
    && run[j + 1] == Do(level, run[j], OpenStep(a)) && a !in run[j + 1].actors
  }

  /** An opening call does what it was asked: it binds the generation it was given, or HEAD - then what it holds is
      committed ... */
  lemma {:induction false} OpensWhatWasAsked(level: Level, run: seq<State>, i: nat, j: nat, a: nat, target: Option<nat>)
    requires IsRun(level, run) && i <= j < |run| && a in run[i].actors && a in run[j].actors
    requires run[i].actors[a].phase == Opening(target)
    ensures Asked(target, run[j].actors[a].phase)
    decreases j
  {
    if i < j {
      StillThere(level, run, i, j - 1, a);
      OpensWhatWasAsked(level, run, i, j - 1, a, target);
      AskedAfter(level, run, j - 1, a, target);
    }
  }

  lemma AskedAfter(level: Level, run: seq<State>, i: nat, a: nat, target: Option<nat>)
    requires IsRun(level, run) && i + 1 < |run| && a in run[i].actors && a in run[i + 1].actors
    requires Asked(target, run[i].actors[a].phase)
    ensures Asked(target, run[i + 1].actors[a].phase)
  {
    var step := NextStep(level, run, i);
    StepAsked(level, run[i], step, a, target);
  }

  /** ... and a missing file only makes it start over: a call on HEAD returns by closing its handle. */
  lemma HeadOpenOnlyRetries(level: Level, run: seq<State>, i: nat, j: nat, a: nat)
    requires IsRun(level, run) && i <= j < |run| && a in run[i].actors && run[i].actors[a].phase == Opening(None)
    requires Returns(level, run, j, a)
    ensures run[j].actors[a].phase.Holding?
  {
    OpensWhatWasAsked(level, run, i, j, a, None);
    RetriesOnly(run[j], a);
  }

  lemma RetriesOnly(s: State, a: nat)
    requires a in s.actors && OpenEnabled(s, s.actors[a].phase) && Asked(None, s.actors[a].phase)
    requires a !in DoOpen(s, a).actors
    ensures s.actors[a].phase.Holding?
  {
  }

  /** A call number is used once. */
  lemma {:induction false} StillThere(level: Level, run: seq<State>, i: nat, j: nat, a: nat)
    requires IsRun(level, run) && i <= j && j + 1 < |run| && a in run[i].actors && a in run[j + 1].actors
    ensures a in run[j].actors
    decreases j
  {
    RunInv(level, run, i);
    ActorNumbered(level, run[i], a);
    CallNumbersGrow(level, run, i, j);
    var step := NextStep(level, run, j);
    NumbersGrow(level, run[j], step);
  }

  lemma {:induction false} CallNumbersGrow(level: Level, run: seq<State>, i: nat, j: nat)
    requires IsRun(level, run) && i <= j < |run|
    ensures run[i].nextActor <= run[j].nextActor
    decreases j
  {
    if i < j {
      CallNumbersGrow(level, run, i, j - 1);
      var step := NextStep(level, run, j - 1);
      NumbersGrow(level, run[j - 1], step);
    }
  }

  lemma StepAsked(level: Level, s: State, step: Step, a: nat, target: Option<nat>)
    requires Inv(level, s) && Enabled(level, s, step) && a in s.actors && a in Do(level, s, step).actors
    requires Asked(target, s.actors[a].phase)
    ensures Asked(target, Do(level, s, step).actors[a].phase)
  {
    if step == OpenStep(a) {
      assert ActorInv(level, s, a);
      OwnStepAsked(s, a, target);
    } else {
      ReaderUnmoved(level, s, step, a);
    }
  }

  lemma OwnStepAsked(s: State, a: nat, target: Option<nat>)
    requires a in s.actors && OpenEnabled(s, s.actors[a].phase) && a in DoOpen(s, a).actors
    requires Asked(target, s.actors[a].phase) && OpenInv(s, a, s.actors[a].pid, s.actors[a].phase)
    requires Length(s.disk.head.now) == |s.log|
    ensures Asked(target, DoOpen(s, a).actors[a].phase)
  {
  }
}
