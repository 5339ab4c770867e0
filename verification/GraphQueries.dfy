/** What the graph queries answer, said of the relation rows alone. */
module GraphQueries {
  import opened Collections
  import opened Sorting
  import opened Graph
  import opened Walk
  import opened WalkFacts
  import opened Traversal

  // -- Rows ---------------------------------------------------------------------------------------------

  /** Some row says what the file depends on or defines. */
  ghost predicate Mentioned(rows: set<Row>, path: string) {
    exists r :: r in rows && r.src == path && (r.rel == "depends-on" || r.rel == "defines")
  }

  ghost predicate MentionedName(rows: set<Row>, name: string) {
    exists r :: r in rows && r.dst == name && (r.rel == "depends-on" || r.rel == "defines")
  }

  /** One need: a file depends on a name, or a name is defined by a file. */
  predicate Link(rows: set<Row>, x: Node, y: Node) {
    || (x.File? && y.Sym? && Row(x.path, "depends-on", y.name) in rows)
    || (x.Sym? && y.File? && Row(y.path, "defines", x.name) in rows)
  }

  /** A chain of needs from `x` to `y`. */
  ghost predicate Chain(rows: set<Row>, x: Node, y: Node) {
    exists p :: IsChain(rows, p) && p[0] == x && p[|p| - 1] == y
  }

  ghost predicate IsChain(rows: set<Row>, p: seq<Node>) {
    p != [] && forall i :: 0 <= i < |p| - 1 ==> Link(rows, p[i], p[i + 1])
  }

  lemma SortedKeys(rows: set<Row>, rel: string, bySrc: bool, k: string)
    ensures k in SortedValues(Neighbors(rows, rel, bySrc)) <==>
      exists r :: r in rows && r.rel == rel && KeyOf(r, bySrc) == k
  {
  }

  /** The graph knows as files the sources of its rows, and as names their targets. */
  lemma KnownIffMentioned(rows: set<Row>, name: string)
    ensures KnownFile(GraphOf(rows), name) <==> Mentioned(rows, name)
    ensures KnownSymbol(GraphOf(rows), name) <==> MentionedName(rows, name)
  {
    SortedKeys(rows, DEPENDS_ON, true, name);
    SortedKeys(rows, DEFINES, true, name);
    SortedKeys(rows, DEPENDS_ON, false, name);
    SortedKeys(rows, DEFINES, false, name);
    FileMentioned(rows, name);
    NameMentioned(rows, name);
  }

  lemma FileMentioned(rows: set<Row>, path: string)
    ensures Mentioned(rows, path) <==>
      || (exists r :: r in rows && r.rel == DEPENDS_ON && KeyOf(r, true) == path)
      || (exists r :: r in rows && r.rel == DEFINES && KeyOf(r, true) == path)
  {
  }

  lemma NameMentioned(rows: set<Row>, name: string)
    ensures MentionedName(rows, name) <==>
      || (exists r :: r in rows && r.rel == DEPENDS_ON && KeyOf(r, false) == name)
      || (exists r :: r in rows && r.rel == DEFINES && KeyOf(r, false) == name)
  {
  }

  lemma LinkIsSucc(rows: set<Row>, x: Node, y: Node)
    ensures y in Succ(GraphOf(rows), Forward, x) <==> Link(rows, x, y)
    ensures x in Succ(GraphOf(rows), Reverse, y) <==> Link(rows, x, y)
  {
    SuccIsNeeds(rows, x, y);
    SuccIsNeeds(rows, y, x);
  }

  /** Forward reachability is the chain ... */
  lemma ForwardIsChain(rows: set<Row>, x: Node, y: Node)
    ensures Reachable(GraphOf(rows), Forward, x, y) <==> Chain(rows, x, y)
  {
    var g := GraphOf(rows);
    if Reachable(g, Forward, x, y) {
      var k: nat :| y in Within(g, Forward, x, k);
      var p := PathTo(g, Forward, x, y, k);
      forall i | 0 <= i < |p| - 1 ensures Link(rows, p[i], p[i + 1]) {
        LinkIsSucc(rows, p[i], p[i + 1]);
      }
    }
    if Chain(rows, x, y) {
      var p :| IsChain(rows, p) && p[0] == x && p[|p| - 1] == y;
      forall i | 0 <= i < |p| - 1 ensures p[i + 1] in Succ(g, Forward, p[i]) {
        LinkIsSucc(rows, p[i], p[i + 1]);
      }
      PathReaches(g, Forward, p);
    }
  }

  /** ... and reverse reachability its converse. */
  lemma ReverseIsChain(rows: set<Row>, x: Node, y: Node)
    ensures Reachable(GraphOf(rows), Reverse, y, x) <==> Chain(rows, x, y)
  {
    var g := GraphOf(rows);
    ForwardIsChain(rows, x, y);
    GraphConverse(rows, Forward);
    GraphConverse(rows, Reverse);
    if Reachable(g, Reverse, y, x) {
      ReachableReversed(g, Reverse, y, x);
    }
    if Reachable(g, Forward, x, y) {
      ReachableReversed(g, Forward, x, y);
    }
  }

  // -- Dependencies and dependents ------------------------------------------------------------------------

  /** `a` needs, through names, the file `b`. */
  ghost predicate DependsOnFile(rows: set<Row>, a: string, b: string) {
    a != b && Chain(rows, File(a), File(b))
  }

  /** What a given name stands for: a file when some row has it as its source, else a symbol. */
  ghost function Meaning(rows: set<Row>, name: string): Node {
    if Mentioned(rows, name) then File(name) else Sym(name)
  }

  ghost predicate DependentOf(rows: set<Row>, name: string, p: string) {
    File(p) != Meaning(rows, name) && Chain(rows, File(p), Meaning(rows, name))
  }

  /** A file is answered only if the root needs it, and unless truncation is reported every such file is answered,
      sorted and once. */
  lemma DependenciesExact(rows: set<Row>, root: string, lim: Limits)
    ensures var t := Dependencies(GraphOf(rows), root, lim);
      && IsSortedSet(LexLe, ToSet(t.nodes), t.nodes)
      && (forall p :: p in t.nodes ==> DependsOnFile(rows, root, p))
      && (!t.truncated ==> forall p :: DependsOnFile(rows, root, p) ==> p in t.nodes)
      && (!Mentioned(rows, root) ==> t == Traversal([], false))
  {
    var g := GraphOf(rows);
    var t := Dependencies(g, root, lim);
    KnownIffMentioned(rows, root);
    forall p
      ensures p in t.nodes ==> DependsOnFile(rows, root, p)
      ensures !t.truncated && DependsOnFile(rows, root, p) ==> p in t.nodes
    {
      ForwardIsChain(rows, File(root), File(p));
      if KnownFile(g, root) {
        FoundMembers(g, Forward, File(root), lim, p);
      } else if DependsOnFile(rows, root, p) {
        ChainStarts(rows, root, p);
      }
    }
  }

  /** A chain to another file begins with a row of its source. */
  lemma ChainStarts(rows: set<Row>, a: string, b: string)
    requires DependsOnFile(rows, a, b)
    ensures Mentioned(rows, a)
  {
    var p :| IsChain(rows, p) && p[0] == File(a) && p[|p| - 1] == File(b);
    assert Link(rows, p[0], p[1]);
  }

  /** The same of the dependents of a file or, when no row has the name as its source, of a symbol. */
  lemma DependentsExact(rows: set<Row>, name: string, lim: Limits)
    ensures var t := Dependents(GraphOf(rows), name, lim);
      && IsSortedSet(LexLe, ToSet(t.nodes), t.nodes)
      && (forall p :: p in t.nodes ==> DependentOf(rows, name, p))
      && (!t.truncated ==> forall p :: DependentOf(rows, name, p) ==> p in t.nodes)
      && (!Mentioned(rows, name) && !MentionedName(rows, name) ==> t == Traversal([], false))
  {
    var g := GraphOf(rows);
    var t := Dependents(g, name, lim);
    KnownIffMentioned(rows, name);
    forall p
      ensures p in t.nodes ==> DependentOf(rows, name, p)
      ensures !t.truncated && DependentOf(rows, name, p) ==> p in t.nodes
    {
      ReverseIsChain(rows, File(p), Meaning(rows, name));
      if Known(g, name) {
        FoundMembers(g, Reverse, StartNode(g, name), lim, p);
      } else if DependentOf(rows, name, p) {
        ChainEnds(rows, name, p);
      }
    }
  }

  /** A chain from a file to a name ends with a row whose target is that name. */
  lemma ChainEnds(rows: set<Row>, name: string, a: string)
    requires Chain(rows, File(a), Sym(name))
    ensures MentionedName(rows, name)
  {
    var p :| IsChain(rows, p) && p[0] == File(a) && p[|p| - 1] == Sym(name);
    assert Link(rows, p[|p| - 2], p[|p| - 2 + 1]);
  }

  /** For different files and untruncated walks of any limits: b is a dependency of a exactly when a is a dependent of
      b and b is the source of some row.  Without such a row the dependents of b are those of the symbol b. */
  lemma DualityOfRows(rows: set<Row>, a: string, b: string, forward: Limits, backward: Limits)
    requires a != b
    requires !Dependencies(GraphOf(rows), a, forward).truncated && !Dependents(GraphOf(rows), b, backward).truncated
    ensures b in Dependencies(GraphOf(rows), a, forward).nodes
      <==> a in Dependents(GraphOf(rows), b, backward).nodes && Mentioned(rows, b)
  {
    DependenciesExact(rows, a, forward);
    DependentsExact(rows, b, backward);
    if DependsOnFile(rows, a, b) {
      ChainArrives(rows, a, b);
    }
  }

  /** A chain from another file arrives by a row of its target. */
  lemma ChainArrives(rows: set<Row>, a: string, b: string)
    requires DependsOnFile(rows, a, b)
    ensures Mentioned(rows, b)
  {
    var p :| IsChain(rows, p) && p[0] == File(a) && p[|p| - 1] == File(b);
    assert Link(rows, p[|p| - 2], p[|p| - 2 + 1]);
  }

  // -- When nothing may be left out -------------------------------------------------------------------------

  /** Everything that needs the root lies within the depth limit, and is fewer files than the budget. */
  ghost predicate Fits(g: Adjacency, dir: Direction, root: Node, lim: Limits) {
    && Within(g, dir, root, Depth(lim) + 1) == Within(g, dir, root, Depth(lim))
    && |FilesWithin(g, dir, root, Depth(lim))| < lim.maxNodes
  }

  /** A walk that fits its limits does not report truncation. */
  lemma FittingWalkIsComplete(g: Adjacency, dir: Direction, root: Node, lim: Limits)
    requires Fits(g, dir, root, lim)
    ensures !Walked(g, dir, root, lim).truncated
  {
    DepthCutIsExact(g, dir, root, lim);
  }

  // -- Invalidation -------------------------------------------------------------------------------------------

  /** The files that some walks found. */
  ghost function NodesOf(walks: seq<Traversal>): set<string> {
    if walks == [] then {} else NodesOf(walks[..|walks| - 1]) + ToSet(walks[|walks| - 1].nodes)
  }

  /** The limits of a walk that starts when `found` has been found: unchanged files count against the budget. */
  ghost function BudgetAfter(lim: Limits, changed: set<string>, found: set<string>): Limits {
    var left := lim.maxNodes - |found - changed|;
    Limits(lim.maxDepth, if left < 0 then 0 else left)
  }

  /** The walk of the root `i` has what the budget leaves after `found` and the walks before it. */
  ghost predicate WalkAt(g: Adjacency, changed: set<string>, todo: seq<string>, lim: Limits, found: set<string>,
                         walks: seq<Traversal>, i: nat)
    requires i < |todo| == |walks|
  {
    walks[i] == Dependents(g, todo[i], BudgetAfter(lim, changed, found + NodesOf(walks[..i])))
  }

  ghost predicate WalksOf(g: Adjacency, changed: set<string>, todo: seq<string>, lim: Limits, found: set<string>,
                          walks: seq<Traversal>)
  {
    |walks| == |todo| && forall i :: 0 <= i < |todo| ==> WalkAt(g, changed, todo, lim, found, walks, i)
  }

  ghost predicate SomeTruncated(walks: seq<Traversal>) {
    exists i :: 0 <= i < |walks| && walks[i].truncated
  }

  lemma {:induction false} GatherWalks(g: Adjacency, changed: set<string>, todo: seq<string>, lim: Limits,
                                       acc: Gathered)
    returns (walks: seq<Traversal>)
    requires changed <= acc.affected
    ensures WalksOf(g, changed, todo, lim, acc.affected, walks)
    ensures var r := Gather(g, |changed|, todo, lim, acc);
      r.affected == acc.affected + NodesOf(walks) && (r.truncated <==> acc.truncated || SomeTruncated(walks))
    decreases |todo|
  {
    if todo == [] {
      walks := [];
    } else {
      var walk, next := FirstWalk(g, changed, todo, lim, acc);
      var rest := GatherWalks(g, changed, todo[1..], lim, next);
      walks := [walk] + rest;
      Joined(acc, walk, rest, Gather(g, |changed|, todo, lim, acc));
      ConsWalks(g, changed, todo, lim, acc.affected, walk, rest);
    }
  }

  lemma Joined(acc: Gathered, walk: Traversal, rest: seq<Traversal>, r: Gathered)
    requires r.affected == acc.affected + ToSet(walk.nodes) + NodesOf(rest)
    requires r.truncated <==> acc.truncated || walk.truncated || SomeTruncated(rest)
    ensures r.affected == acc.affected + NodesOf([walk] + rest)
    ensures r.truncated <==> acc.truncated || SomeTruncated([walk] + rest)
  {
    NodesOfCons(walk, rest);
    TruncatedCons(walk, rest);
  }

  lemma FirstWalk(g: Adjacency, changed: set<string>, todo: seq<string>, lim: Limits, acc: Gathered)
    returns (walk: Traversal, next: Gathered)
    requires todo != [] && changed <= acc.affected
    ensures walk == Dependents(g, todo[0], BudgetAfter(lim, changed, acc.affected))
    ensures next == Gathered(acc.affected + ToSet(walk.nodes), acc.truncated || walk.truncated)
    ensures Gather(g, |changed|, todo, lim, acc) == Gather(g, |changed|, todo[1..], lim, next)
  {
    GatherOnce(g, |changed|, todo, lim, acc);
    SizeBeyond(changed, acc.affected);
    walk := Dependents(g, todo[0], Remaining(lim, |acc.affected| - |changed|));
    next := Gathered(acc.affected + ToSet(walk.nodes), acc.truncated || walk.truncated);
  }

  lemma SizeBeyond(a: set<string>, b: set<string>)
    requires a <= b
    ensures |b| - |a| == |b - a|
  {
    assert b == a + (b - a);
  }

  lemma {:induction false} NodesOfCons(walk: Traversal, rest: seq<Traversal>)
    ensures NodesOf([walk] + rest) == ToSet(walk.nodes) + NodesOf(rest)
  {
    var all := [walk] + rest;
    if rest == [] {
      assert all[..0] == [];
    } else {
      NodesOfCons(walk, rest[..|rest| - 1]);
      assert all[..|all| - 1] == [walk] + rest[..|rest| - 1];
    }
  }

  lemma TruncatedCons(walk: Traversal, rest: seq<Traversal>)
    ensures SomeTruncated([walk] + rest) <==> walk.truncated || SomeTruncated(rest)
  {
    var all := [walk] + rest;
    assert all[0] == walk && forall i :: 0 <= i < |rest| ==> all[i + 1] == rest[i];
  }

  lemma ConsWalks(g: Adjacency, changed: set<string>, todo: seq<string>, lim: Limits, found: set<string>,
                  walk: Traversal, rest: seq<Traversal>)
    requires todo != [] && walk == Dependents(g, todo[0], BudgetAfter(lim, changed, found))
    requires WalksOf(g, changed, todo[1..], lim, found + ToSet(walk.nodes), rest)
    ensures WalksOf(g, changed, todo, lim, found, [walk] + rest)
  {
    var walks := [walk] + rest;
    forall i | 0 <= i < |todo| ensures WalkAt(g, changed, todo, lim, found, walks, i) {
      if i == 0 {
        assert found + NodesOf(walks[..0]) == found;
      } else {
        LaterWalk(g, changed, todo, lim, found, walk, rest, i);
      }
    }
  }

  lemma LaterWalk(g: Adjacency, changed: set<string>, todo: seq<string>, lim: Limits, found: set<string>,
                  walk: Traversal, rest: seq<Traversal>, i: nat)
    requires 0 < i < |todo| && |rest| == |todo| - 1
    requires WalkAt(g, changed, todo[1..], lim, found + ToSet(walk.nodes), rest, i - 1)
    ensures WalkAt(g, changed, todo, lim, found, [walk] + rest, i)
  {
    var walks := [walk] + rest;
    assert walks[..i] == [walk] + rest[..i - 1];
    NodesOfCons(walk, rest[..i - 1]);
    assert found + NodesOf(walks[..i]) == found + ToSet(walk.nodes) + NodesOf(rest[..i - 1]);
  }

  /** The invalidation set is the changed paths with one walk for each, in order: each has the budget less the
      unchanged files that the earlier ones found, and truncation of any is reported. */
  lemma InvalidationWalks(g: Adjacency, changed: set<string>, lim: Limits) returns (walks: seq<Traversal>)
    ensures WalksOf(g, changed, SortedSet(changed), lim, {}, walks)
    ensures var t := Invalidation(g, changed, lim);
      && IsSortedSet(LexLe, changed + NodesOf(walks), t.nodes)
      && (t.truncated <==> SomeTruncated(walks))
  {
    var roots := SortedSet(changed);
    walks := GatherWalks(g, changed, roots, lim, Gathered(changed, false));
    forall i | 0 <= i < |roots| ensures WalkAt(g, changed, roots, lim, {}, walks, i) {
      assert WalkAt(g, changed, roots, lim, changed, walks, i);
      SameBudget(lim, changed, NodesOf(walks[..i]));
    }
  }

  lemma SameBudget(lim: Limits, changed: set<string>, found: set<string>)
    ensures BudgetAfter(lim, changed, changed + found) == BudgetAfter(lim, changed, {} + found)
  {
    assert changed + found - changed == {} + found - changed;
  }

  /** Only changed paths and their dependents; all of them unless truncation is reported. */
  lemma InvalidationExact(rows: set<Row>, changed: set<string>, lim: Limits)
    ensures var t := Invalidation(GraphOf(rows), changed, lim);
      && (forall p :: p in t.nodes ==> p in changed || exists c :: c in changed && DependentOf(rows, c, p))
      && (forall p :: p in changed ==> p in t.nodes)
      && (!t.truncated ==> forall c, p :: c in changed && DependentOf(rows, c, p) ==> p in t.nodes)
  {
    var g := GraphOf(rows);
    InvalidationIsSound(g, changed, lim);
    var t := Invalidation(g, changed, lim);
    assert forall p :: p in t.nodes <==> p in ToSet(t.nodes);
    forall c, p ensures TrueDependent(g, c, p) <==> DependentOf(rows, c, p) {
      TrueIsDependent(rows, c, p);
    }
  }

  lemma TrueIsDependent(rows: set<Row>, c: string, p: string)
    ensures TrueDependent(GraphOf(rows), c, p) <==> DependentOf(rows, c, p)
  {
    KnownIffMentioned(rows, c);
    ReverseIsChain(rows, File(p), Meaning(rows, c));
    if DependentOf(rows, c, p) && !Mentioned(rows, c) {
      ChainEnds(rows, c, p);
    }
  }

  /** The unchanged files that need some changed path. */
  ghost function Reached(g: Adjacency, changed: set<string>, lim: Limits): set<string> {
    set c, p | c in changed && p in FilesWithin(g, Reverse, StartNode(g, c), Depth(lim)) && p !in changed :: p
  }

  /** If every changed path's walk would fit a budget from which all the unchanged files that need any changed path
      are taken, the invalidation set does not report truncation. */
  lemma InvalidationMustBeComplete(g: Adjacency, changed: set<string>, lim: Limits)
    requires forall c :: c in changed ==>
      Fits(g, Reverse, StartNode(g, c), Limits(lim.maxDepth, lim.maxNodes - |Reached(g, changed, lim)|))
    ensures !Invalidation(g, changed, lim).truncated
  {
    var walks := InvalidationWalks(g, changed, lim);
    var roots := SortedSet(changed);
    forall i | 0 <= i < |walks| ensures !walks[i].truncated {
      assert roots[i] in changed;
      assert WalkAt(g, changed, roots, lim, {}, walks, i);
      FoundIsReached(g, changed, lim, walks, i);
      WalkFits(g, changed, lim, roots[i], {} + NodesOf(walks[..i]));
    }
  }

  lemma WalkFits(g: Adjacency, changed: set<string>, lim: Limits, c: string, found: set<string>)
    requires Fits(g, Reverse, StartNode(g, c), Limits(lim.maxDepth, lim.maxNodes - |Reached(g, changed, lim)|))
    requires found - changed <= Reached(g, changed, lim)
    ensures !Dependents(g, c, BudgetAfter(lim, changed, found)).truncated
  {
    SubsetNotLarger(found - changed, Reached(g, changed, lim));
    FittingWalkIsComplete(g, Reverse, StartNode(g, c), BudgetAfter(lim, changed, found));
  }

  lemma {:induction false} FoundIsReached(g: Adjacency, changed: set<string>, lim: Limits, walks: seq<Traversal>,
                                          i: nat)
    requires WalksOf(g, changed, SortedSet(changed), lim, {}, walks) && i <= |walks|
    ensures {} + NodesOf(walks[..i]) - changed <= Reached(g, changed, lim)
  {
    var roots := SortedSet(changed);
    if i > 0 {
      FoundIsReached(g, changed, lim, walks, i - 1);
      assert roots[i - 1] in changed && WalkAt(g, changed, roots, lim, {}, walks, i - 1);
      assert walks[..i][..i - 1] == walks[..i - 1] && walks[..i][i - 1] == walks[i - 1];
      NodesAreReached(g, changed, roots[i - 1], lim, {} + NodesOf(walks[..i - 1]));
    }
  }

  lemma NodesAreReached(g: Adjacency, changed: set<string>, c: string, lim: Limits, found: set<string>)
    requires c in changed
    ensures ToSet(Dependents(g, c, BudgetAfter(lim, changed, found)).nodes) - changed <= Reached(g, changed, lim)
  {
    var budget := BudgetAfter(lim, changed, found);
    forall p | p in Dependents(g, c, budget).nodes && p !in changed ensures p in Reached(g, changed, lim) {
      NodesAreNear(g, c, budget, p);
    }
  }

  lemma NodesAreNear(g: Adjacency, c: string, lim: Limits, p: string)
    requires p in Dependents(g, c, lim).nodes
    ensures p in FilesWithin(g, Reverse, StartNode(g, c), Depth(lim))
  {
    EmitsExactlyWithinBudget(g, Reverse, StartNode(g, c), lim);
    assert p in ToSet(Walked(g, Reverse, StartNode(g, c), lim).emitted);
  }
}
