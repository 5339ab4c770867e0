/** The derived index under any sequence of observations and commits, accepted or rejected. */
module StoreFeedCalls {
  import opened Options
  import opened FeedRecords
  import opened StoreFeed

  // -- Any sequence of calls -------------------------------------------------------------------

  datatype Op = Observe(generation: nat) | Apply(commit: Commit) | Accept(commit: Commit, replace: bool)
  {
    function Generation(): nat {
      if Observe? then generation else commit.feed.generation
    }
  }

  /** One call; a rejected one leaves the index as it is. */
  function Outcome(s: State, op: Op): Option<State> {
    match op
    case Observe(g) => Observed(s, g)
    case Apply(c) => Applied(s, c)
    case Accept(c, replace) => Accepted(s, c, replace)
  }

  function After(ops: seq<Op>): State {
    if ops == [] then FRESH
    else
      var before := After(ops[..|ops| - 1]);
      var next := Outcome(before, ops[|ops| - 1]);
      if next.Some? then next.value else before
  }

  ghost predicate Succeeds(ops: seq<Op>, k: nat)
    requires k < |ops|
  {
    Outcome(After(ops[..k]), ops[k]).Some?
  }

  /** The successful calls reach generation `g` at most, and some call reaches it. */
  ghost predicate IsHighest(ops: seq<Op>, g: nat) {
    && (forall k: nat :: k < |ops| && Succeeds(ops, k) ==> ops[k].Generation() <= g)
    && (g == 0 || exists k: nat :: k < |ops| && Succeeds(ops, k) && ops[k].Generation() == g)
  }

  /** Call `k` is a commit and was taken. */
  ghost predicate TakenAt(ops: seq<Op>, k: nat)
    requires k < |ops|
  {
    !ops[k].Observe? && Succeeds(ops, k)
  }

  ghost predicate LastTakenAt(ops: seq<Op>, k: nat) {
    k < |ops| && TakenAt(ops, k) && forall l: nat :: k < l < |ops| ==> !TakenAt(ops, l)
  }

  /** `g` is the generation of the last commit taken, and no commit taken before it was newer. */
  ghost predicate IsLastCommit(ops: seq<Op>, g: nat) {
    && (forall k: nat :: k < |ops| && TakenAt(ops, k) ==> ops[k].Generation() <= g)
    && (g == 0 || exists k: nat :: LastTakenAt(ops, k) && ops[k].Generation() == g)
  }

  /** After any calls in any order, rejected ones among them, the store's generation is the highest that was observed
      or committed, and the index is through the last commit taken. */
  lemma {:induction false} GenerationsAfter(ops: seq<Op>)
    ensures IsHighest(ops, After(ops).store) && IsLastCommit(ops, After(ops).through)
  {
    if ops != [] {
      var last: nat := |ops| - 1;
      var init := ops[..last];
      GenerationsAfter(init);
      forall k: nat | k < last ensures Succeeds(ops, k) == Succeeds(init, k) && ops[k] == init[k] {
        assert ops[..k] == init[..k];
      }
      HighestSnoc(ops, After(init).store, After(ops).store);
      LastCommitSnoc(ops, After(init).through, After(ops).through);
    }
  }

  lemma HighestSnoc(ops: seq<Op>, before: nat, g: nat)
    requires ops != [] && IsHighest(ops[..|ops| - 1], before)
    requires forall k: nat :: k < |ops| - 1 ==> Succeeds(ops, k) == Succeeds(ops[..|ops| - 1], k)
    requires g == if Succeeds(ops, |ops| - 1) then Max(before, ops[|ops| - 1].Generation()) else before
    ensures IsHighest(ops, g)
  {
    var init := ops[..|ops| - 1];
    assert forall k: nat :: k < |ops| - 1 ==> ops[k] == init[k];
    if g != 0 && g == before {
      var k: nat :| k < |init| && Succeeds(init, k) && init[k].Generation() == g;
      assert Succeeds(ops, k) && ops[k].Generation() == g;
    }
  }

  lemma LastCommitSnoc(ops: seq<Op>, before: nat, g: nat)
    requires ops != [] && IsLastCommit(ops[..|ops| - 1], before)
    requires forall k: nat :: k < |ops| - 1 ==> Succeeds(ops, k) == Succeeds(ops[..|ops| - 1], k)
    requires var last := ops[|ops| - 1];
      if !last.Observe? && Succeeds(ops, |ops| - 1) then g == last.Generation() && before <= g else g == before
    ensures IsLastCommit(ops, g)
  {
    var n: nat := |ops| - 1;
    var init := ops[..n];
    forall k: nat | k < n ensures ops[k] == init[k] && TakenAt(ops, k) == TakenAt(init, k) {
    }
    if TakenAt(ops, n) {
      assert LastTakenAt(ops, n);
      NoneNewer(ops, init, before, g);
    } else {
      if g != 0 { StillLast(ops, init, g); }
      NoneNewer(ops, init, before, g);
    }
  }

  lemma NoneNewer(ops: seq<Op>, init: seq<Op>, before: nat, g: nat)
    requires |ops| == |init| + 1 && before <= g && (TakenAt(ops, |init|) ==> ops[|init|].Generation() <= g)
    requires forall k: nat :: k < |init| ==> ops[k] == init[k] && TakenAt(ops, k) == TakenAt(init, k)
    requires forall k: nat :: k < |init| && TakenAt(init, k) ==> init[k].Generation() <= before
    ensures forall k: nat :: k < |ops| && TakenAt(ops, k) ==> ops[k].Generation() <= g
  {
  }

  lemma StillLast(ops: seq<Op>, init: seq<Op>, g: nat)
    requires |ops| == |init| + 1 && !TakenAt(ops, |init|)
    requires forall k: nat :: k < |init| ==> ops[k] == init[k] && TakenAt(ops, k) == TakenAt(init, k)
    requires exists k: nat :: LastTakenAt(init, k) && init[k].Generation() == g
    ensures exists k: nat :: LastTakenAt(ops, k) && ops[k].Generation() == g
  {
    var k: nat :| LastTakenAt(init, k) && init[k].Generation() == g;
    assert LastTakenAt(ops, k) && ops[k].Generation() == g;
  }

  /** Which calls succeed, said by the calls that succeeded before. */
  lemma SucceedsIff(ops: seq<Op>, k: nat)
    requires k < |ops|
    ensures Succeeds(ops, k) <==>
      match ops[k]
      case Observe(g) => ReachedBefore(ops, k, g)
      case Apply(c) => Validates(c) && c.feed.generation > 0 && TakenBefore(ops, k, c.feed.generation - 1)
      case Accept(c, _) => Validates(c) && TakenBefore(ops, k, c.feed.generation)
  {
    var init := ops[..k];
    GenerationsAfter(init);
    forall j: nat | j < k ensures Succeeds(ops, j) == Succeeds(init, j) && ops[j] == init[j] {
      assert ops[..j] == init[..j];
    }
    HighestBefore(ops, k, After(init).store);
    LastBefore(ops, k, After(init).through);
    match ops[k]
    case Observe(g) => assert ReachedBefore(ops, k, g) <==> After(init).store <= g;
    case Apply(c) =>
      if c.feed.generation > 0 {
        assert TakenBefore(ops, k, c.feed.generation - 1) <==> After(init).through <= c.feed.generation - 1;
      }
    case Accept(c, _) => assert TakenBefore(ops, k, c.feed.generation) <==> After(init).through <= c.feed.generation;
  }

  /** What succeeded before call `k` is of generation `g` at most. */
  ghost predicate ReachedBefore(ops: seq<Op>, k: nat, g: nat)
    requires k <= |ops|
  {
    forall j: nat :: j < k && Succeeds(ops, j) ==> ops[j].Generation() <= g
  }

  lemma HighestBefore(ops: seq<Op>, k: nat, store: nat)
    requires k <= |ops| && IsHighest(ops[..k], store)
    requires forall j: nat :: j < k ==> Succeeds(ops, j) == Succeeds(ops[..k], j) && ops[j] == ops[..k][j]
    ensures forall g: nat :: ReachedBefore(ops, k, g) <==> store <= g
  {
    var init := ops[..k];
    if store != 0 {
      var j: nat :| j < |init| && Succeeds(init, j) && init[j].Generation() == store;
      assert Succeeds(ops, j);
    }
  }

  lemma LastBefore(ops: seq<Op>, k: nat, through: nat)
    requires k <= |ops| && IsLastCommit(ops[..k], through)
    requires forall j: nat :: j < k ==> Succeeds(ops, j) == Succeeds(ops[..k], j) && ops[j] == ops[..k][j]
    ensures forall g: nat :: TakenBefore(ops, k, g) <==> through <= g
  {
    var init := ops[..k];
    assert forall j: nat :: j < k ==> TakenAt(ops, j) == TakenAt(init, j);
    if through != 0 {
      var j: nat :| LastTakenAt(init, j) && init[j].Generation() == through;
      assert TakenAt(ops, j);
    }
  }

  /** Every commit taken before call `k` is of generation `g` at most. */
  ghost predicate TakenBefore(ops: seq<Op>, k: nat, g: nat)
    requires k <= |ops|
  {
    forall j: nat :: j < k && TakenAt(ops, j) ==> ops[j].Generation() <= g
  }

  /** The index is complete exactly when no successful call named a newer generation than the commits taken. */
  lemma CompleteIff(ops: seq<Op>)
    ensures After(ops).through <= After(ops).store
    ensures After(ops).through == After(ops).store <==>
      forall k: nat :: k < |ops| && Succeeds(ops, k) && ops[k].Generation() > 0 ==>
        exists l: nat :: l < |ops| && !ops[l].Observe? && Succeeds(ops, l) && ops[l].Generation() >= ops[k].Generation()
  {
    GenerationsAfter(ops);
    var s := After(ops);
    if s.through != 0 {
      var l: nat :| LastTakenAt(ops, l) && ops[l].Generation() == s.through;
      assert s.through <= s.store;
    }
    if s.store != 0 {
      var k: nat :| k < |ops| && Succeeds(ops, k) && ops[k].Generation() == s.store;
    }
  }

  // -- What the relations are ------------------------------------------------------------------

  /** The commits taken so far, from the last replacement on. */
  ghost function Taken(ops: seq<Op>): seq<Commit> {
    if ops == [] then []
    else
      var before, last := Taken(ops[..|ops| - 1]), ops[|ops| - 1];
      if last.Observe? || !Succeeds(ops, |ops| - 1) then before
      else if last.Accept? && last.replace then [last.commit]
      else before + [last.commit]
  }

  /** An identity is present exactly when some commit mentions it, with the last value of the last that does. */
  ghost predicate HoldsLast(m: map<Identity, Relation>, taken: seq<Commit>, id: Identity) {
    match LastMention(taken, id)
    case Some(c) => id in m && Some(m[id]) == LastOf(c.relations, id)
    case None => id !in m
  }

  lemma HoldsAfterPut(m: map<Identity, Relation>, taken: seq<Commit>, c: Commit, id: Identity)
    requires HoldsLast(m, taken, id)
    ensures HoldsLast(Put(m, c.relations), taken + [c], id)
  {
    PutLast(m, c.relations, id);
    assert (taken + [c])[..|taken|] == taken;
  }

  lemma CommitTaken(s: State, c: Commit, replace: bool, taken: seq<Commit>, id: Identity)
    requires Accepted(s, c, replace).Some? && HoldsLast(s.relations, taken, id)
    ensures HoldsLast(Accepted(s, c, replace).value.relations, (if replace then [] else taken) + [c], id)
  {
    HoldsAfterPut(if replace then map[] else s.relations, if replace then [] else taken, c, id);
  }

  /** After any calls the index holds what the commits taken since the last replacement say. */
  lemma {:induction false} RelationsAfter(ops: seq<Op>, id: Identity)
    ensures HoldsLast(After(ops).relations, Taken(ops), id)
  {
    if ops != [] {
      var n: nat := |ops| - 1;
      RelationsAfter(ops[..n], id);
      if !ops[n].Observe? && Succeeds(ops, n) {
        CommitTaken(After(ops[..n]), ops[n].commit, ops[n].Accept? && ops[n].replace, Taken(ops[..n]), id);
      }
    }
  }
}
