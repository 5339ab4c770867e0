/** Dependency and dependent traversals, and the invalidation set, with the loops the source runs. */
module Traversal {
  import opened Collections
  import opened Sorting
  import opened Graph
  import opened Walk
  import opened WalkFacts

  datatype Traversal = Traversal(nodes: seq<string>, truncated: bool)

  predicate KnownFile(g: Adjacency, p: string) {
    p in g.depends || p in g.definesOf
  }

  predicate KnownSymbol(g: Adjacency, s: string) {
    s in g.rdepends || s in g.defines
  }

  ghost function Found(w: Wave): Traversal {
    Traversal(SortedSet(ToSet(w.emitted)), w.truncated)
  }

  ghost function Dependencies(g: Adjacency, root: string, lim: Limits): Traversal {
    if KnownFile(g, root) then Found(Walked(g, Forward, File(root), lim)) else Traversal([], false)
  }

  /** A changed name is taken as a file when the graph knows it as one, else as a symbol. */
  predicate Known(g: Adjacency, name: string) {
    KnownFile(g, name) || KnownSymbol(g, name)
  }

  function StartNode(g: Adjacency, name: string): Node {
    if KnownFile(g, name) then File(name) else Sym(name)
  }

  ghost function Dependents(g: Adjacency, name: string, lim: Limits): Traversal {
    if Known(g, name) then Found(Walked(g, Reverse, StartNode(g, name), lim)) else Traversal([], false)
  }

  // -- The wave loop ---------------------------------------------------------------------------

  ghost predicate Matches(w: Wave, visited: set<Node>, frontier: seq<(Node, nat)>, emitted: seq<string>,
                          truncated: bool)
  {
    && visited == w.depth.Keys && emitted == w.emitted && truncated == w.truncated
    && |frontier| == |w.frontier|
    && (forall i :: 0 <= i < |frontier| ==>
          && w.frontier[i] in w.depth
          && frontier[i] == (w.frontier[i], w.depth[w.frontier[i]]))
  }

  /** Offer every neighbour of one popped node. */
  method OfferNeighbors(lim: Limits, neighbors: seq<Node>, depth: nat, visited0: set<Node>, frontier0: seq<(Node, nat)>,
                        emitted0: seq<string>, truncated0: bool, ghost w: Wave)
    returns (visited: set<Node>, frontier: seq<(Node, nat)>, emitted: seq<string>, truncated: bool)
    requires Matches(w, visited0, frontier0, emitted0, truncated0)
    ensures Matches(Scan(lim, w, neighbors, depth), visited, frontier, emitted, truncated)
  {
    visited, frontier, emitted, truncated := visited0, frontier0, emitted0, truncated0;
    ghost var v := w;
    for k := 0 to |neighbors|
      invariant Matches(v, visited, frontier, emitted, truncated)
      invariant Scan(lim, v, neighbors[k..], depth) == Scan(lim, w, neighbors, depth)
    {
      var n := neighbors[k];
      assert neighbors[k..][0] == n && neighbors[k..][1..] == neighbors[k + 1..];
      if n !in visited {
        if Admits(lim, depth + 1, |emitted|) {
          visited := visited + {n};
          frontier := frontier + [(n, depth + 1)];
          if n.File? { emitted := emitted + [n.path]; }
          v := Admit(v, n, depth + 1);
        } else {
          truncated := true;
          v := v.(truncated := true);
        }
      }
    }
  }

  method Drain(g: Adjacency, dir: Direction, ghost root: Node, lim: Limits, visited0: set<Node>,
               frontier0: seq<(Node, nat)>,
               emitted0: seq<string>, truncated0: bool, ghost w0: Wave)
    returns (emitted: seq<string>, truncated: bool)
    requires Scoped(g, root, w0) && Matches(w0, visited0, frontier0, emitted0, truncated0)
    ensures var r := Run(g, dir, root, lim, w0); emitted == r.emitted && truncated == r.truncated
  {
    var visited, frontier := visited0, frontier0;
    emitted, truncated := emitted0, truncated0;
    ghost var w := w0;
    while frontier != []
      invariant Scoped(g, root, w) && Matches(w, visited, frontier, emitted, truncated)
      invariant Run(g, dir, root, lim, w) == Run(g, dir, root, lim, w0)
      decreases |Universe(g) + {root} - w.depth.Keys|, |w.frontier|
    {
      var (node, depth) := frontier[0];
      ghost var rest := w.(frontier := w.frontier[1..]);
      PopUnfolds(g, dir, root, lim, w);
      MatchesRest(w, visited, frontier, emitted, truncated);
      visited, frontier, emitted, truncated :=
        OfferNeighbors(lim, Succ(g, dir, node), depth, visited, frontier[1..], emitted, truncated, rest);
      w := Pop(g, dir, lim, w);
    }
  }

  lemma MatchesRest(w: Wave, visited: set<Node>, frontier: seq<(Node, nat)>, emitted: seq<string>, truncated: bool)
    requires Matches(w, visited, frontier, emitted, truncated) && frontier != []
    ensures w.frontier != [] && w.frontier[0] in w.depth && frontier[0] == (w.frontier[0], w.depth[w.frontier[0]])
    ensures Matches(w.(frontier := w.frontier[1..]), visited, frontier[1..], emitted, truncated)
  {
    assert frontier[0] == (w.frontier[0], w.depth[w.frontier[0]]);
    forall i | 0 <= i < |frontier[1..]|
      ensures w.frontier[1..][i] in w.depth && frontier[1..][i] == (w.frontier[1..][i], w.depth[w.frontier[1..][i]])
    {
      assert frontier[i + 1] == (w.frontier[i + 1], w.depth[w.frontier[i + 1]]);
    }
  }

  lemma PopUnfolds(g: Adjacency, dir: Direction, root: Node, lim: Limits, w: Wave)
    requires Scoped(g, root, w) && w.frontier != []
    ensures var t := Pop(g, dir, lim, w);
      && Scoped(g, root, t) && Run(g, dir, root, lim, t) == Run(g, dir, root, lim, w)
      && (|Universe(g) + {root} - t.depth.Keys| < |Universe(g) + {root} - w.depth.Keys|
          || (t.depth.Keys == w.depth.Keys && |t.frontier| < |w.frontier|))
  {
    PopShrinks(g, dir, root, lim, w);
  }

  method SortFiles(emitted: seq<string>) returns (nodes: seq<string>)
    ensures nodes == SortedSet(ToSet(emitted))
  {
    nodes := SortStrings(set p | p in emitted);
  }

  method TraverseDependencies(rows: seq<Row>, root: string, lim: Limits) returns (t: Traversal)
    ensures t == Dependencies(GraphOf(RowSet(rows)), root, lim)
  {
    var g := BuildGraph(rows);
    if !KnownFile(g, root) { return Traversal([], false); }
    var emitted, truncated :=
      Drain(g, Forward, File(root), lim, {File(root)}, [(File(root), 0)], [], false, Start(File(root)));
    var nodes := SortFiles(emitted);
    t := Traversal(nodes, truncated);
  }

  // -- Dependents: the seeds are offered first, with an early return on refusal -------------------

  lemma {:induction false} RefusedScan(lim: Limits, w: Wave, neighbors: seq<Node>, depth: nat)
    requires !Admits(lim, depth + 1, |w.emitted|)
    ensures Scan(lim, w, neighbors, depth).frontier == w.frontier && Scan(lim, w, neighbors, depth).emitted == w.emitted
    ensures Scan(lim, w, neighbors, depth).depth == w.depth
    ensures w.truncated || (neighbors != [] && neighbors[0] !in w.depth) ==> Scan(lim, w, neighbors, depth).truncated
    decreases |neighbors|
  {
    if neighbors != [] {
      RefusedScan(lim, if neighbors[0] in w.depth then w else w.(truncated := true), neighbors[1..], depth);
    }
  }

  /** With the node budget used up the rest of the walk emits nothing. */
  lemma {:induction false} ExhaustedRun(g: Adjacency, dir: Direction, root: Node, lim: Limits, w: Wave)
    requires Scoped(g, root, w) && (lim.maxNodes <= |w.emitted| || w.frontier == [])
    ensures Run(g, dir, root, lim, w).emitted == w.emitted
    ensures w.truncated ==> Run(g, dir, root, lim, w).truncated
    decreases |Universe(g) + {root} - w.depth.Keys|, |w.frontier|
  {
    if w.frontier != [] {
      PopShrinks(g, dir, root, lim, w);
      var rest := w.(frontier := w.frontier[1..]);
      RefusedScan(lim, rest, Succ(g, dir, w.frontier[0]), w.depth[w.frontier[0]]);
      ExhaustedRun(g, dir, root, lim, Pop(g, dir, lim, w));
    }
  }

  method TraverseDependents(rows: seq<Row>, name: string, lim: Limits) returns (t: Traversal)
    ensures t == Dependents(GraphOf(RowSet(rows)), name, lim)
  {
    var g := BuildGraph(rows);
    if !Known(g, name) { return Traversal([], false); }
    var root := StartNode(g, name);
    var visited, frontier, emitted, refused;
    ghost var v;
    visited, frontier, emitted, refused, v := OfferSeeds(g, root, lim);
    PopUnfolds(g, Reverse, root, lim, Start(root));
    if refused {
      ExhaustedRun(g, Reverse, root, lim, Pop(g, Reverse, lim, Start(root)));
      var early := SortFiles(emitted);
      return Traversal(early, true);
    }
    var truncated;
    emitted, truncated := Drain(g, Reverse, root, lim, visited, frontier, emitted, false, v);
    var nodes := SortFiles(emitted);
    t := Traversal(nodes, truncated);
  }

  /** The seed loop: the neighbours of the start, stopping at the first refusal. */
  method OfferSeeds(g: Adjacency, root: Node, lim: Limits)
    returns (visited: set<Node>, frontier: seq<(Node, nat)>, emitted: seq<string>, refused: bool, ghost v: Wave)
    ensures var popped := Pop(g, Reverse, lim, Start(root));
      if refused then popped.emitted == emitted && popped.truncated &&
          (lim.maxNodes <= |emitted| || popped.frontier == [])
      else v == popped && Matches(v, visited, frontier, emitted, false)
  {
    var seeds := Succ(g, Reverse, root);
    visited, frontier, emitted, refused := {root}, [], [], false;
    v := Start(root).(frontier := []);
    ghost var popped := Pop(g, Reverse, lim, Start(root));
    assert Start(root).frontier[1..] == [];
    assert seeds[0..] == seeds;
    for k := 0 to |seeds|
      invariant Matches(v, visited, frontier, emitted, false)
      invariant Scan(lim, v, seeds[k..], 0) == popped
      invariant (v.frontier == [] && emitted == []) || !(lim.maxDepth < 1)
    {
      var n := seeds[k];
      assert seeds[k..][0] == n && seeds[k..][1..] == seeds[k + 1..];
      if n !in visited {
        if !Admits(lim, 1, |emitted|) {
          RefusedScan(lim, v, seeds[k..], 0);
          refused := true;
          return;
        }
        visited := visited + {n};
        frontier := frontier + [(n, 1)];
        if n.File? { emitted := emitted + [n.path]; }
        v := Admit(v, n, 1);
      }
    }
  }

  // -- Duality ---------------------------------------------------------------------------------

  ghost predicate IsPath(g: Adjacency, dir: Direction, p: seq<Node>) {
    p != [] && forall i :: 0 <= i < |p| - 1 ==> p[i + 1] in Succ(g, dir, p[i])
  }

  lemma {:induction false} PathTo(g: Adjacency, dir: Direction, x: Node, y: Node, k: nat) returns (p: seq<Node>)
    requires y in Within(g, dir, x, k)
    ensures IsPath(g, dir, p) && p[0] == x && p[|p| - 1] == y
    decreases k
  {
    if k == 0 {
      WithinZero(g, dir, x, y);
      p := [x];
    } else {
      var q, same := Predecessor(g, dir, x, k, y);
      var init := PathTo(g, dir, x, q, k - 1);
      p := if same then init else init + [y];
    }
  }

  lemma WithinZero(g: Adjacency, dir: Direction, root: Node, x: Node)
    ensures x in Within(g, dir, root, 0) <==> x == root
  {
  }

  lemma Predecessor(g: Adjacency, dir: Direction, root: Node, k: nat, y: Node) returns (q: Node, same: bool)
    requires k > 0 && y in Within(g, dir, root, k)
    ensures q in Within(g, dir, root, k - 1) && (if same then q == y else y in Succ(g, dir, q))
  {
    LayerBefore(g, dir, root, k, y);
    same := y in Within(g, dir, root, k - 1);
    q := y;
    if !same {
      q :| q in Within(g, dir, root, k - 1) && y in Succ(g, dir, q);
    }
  }

  lemma {:induction false} PathReaches(g: Adjacency, dir: Direction, p: seq<Node>)
    requires IsPath(g, dir, p)
    ensures p[|p| - 1] in Within(g, dir, p[0], |p| - 1)
  {
    if |p| > 1 {
      var init := p[..|p| - 1];
      PathReaches(g, dir, init);
      assert init[|init| - 1] == p[|p| - 2] && init[0] == p[0];
      assert p[|p| - 2 + 1] in Succ(g, dir, p[|p| - 2]);
      NextLayer(g, dir, p[0], |p| - 2, p[|p| - 2], p[|p| - 1]);
    }
  }

  function Opposite(dir: Direction): Direction {
    if dir.Forward? then Reverse else Forward
  }

  ghost predicate Converse(g: Adjacency, dir: Direction) {
    forall x, y :: y in Succ(g, dir, x) ==> x in Succ(g, Opposite(dir), y)
  }

  lemma GraphConverse(rows: set<Row>, dir: Direction)
    ensures Converse(GraphOf(rows), dir)
  {
    forall x, y | y in Succ(GraphOf(rows), dir, x) ensures x in Succ(GraphOf(rows), Opposite(dir), y) {
      SuccIsNeeds(rows, x, y);
      SuccIsNeeds(rows, y, x);
    }
  }

  lemma ReachableReversed(g: Adjacency, dir: Direction, x: Node, y: Node)
    requires Converse(g, dir) && Reachable(g, dir, x, y)
    ensures Reachable(g, Opposite(dir), y, x)
  {
    var k: nat :| y in Within(g, dir, x, k);
    var p := PathTo(g, dir, x, y, k);
    var back := seq(|p|, i requires 0 <= i < |p| => p[|p| - 1 - i]);
    forall i | 0 <= i < |back| - 1 ensures back[i + 1] in Succ(g, Opposite(dir), back[i]) {
      var j := |p| - 2 - i;
      assert p[j + 1] in Succ(g, dir, p[j]);
    }
    PathReaches(g, Opposite(dir), back);
  }

  lemma FoundMembers(g: Adjacency, dir: Direction, root: Node, lim: Limits, p: string)
    ensures p in Found(Walked(g, dir, root, lim)).nodes ==> Reachable(g, dir, root, File(p)) && File(p) != root
    ensures !Walked(g, dir, root, lim).truncated && Reachable(g, dir, root, File(p)) && File(p) != root ==>
      p in Found(Walked(g, dir, root, lim)).nodes
  {
    TruncatedIffIncomplete(g, dir, root, lim);
    WalkedInv(g, dir, root, lim);
  }

  /** For known files and untruncated walks, b is among the dependencies of a exactly when a is
      among the dependents of b -- whatever limits each walk was given. */
  lemma Duality(rows: set<Row>, a: string, b: string, forward: Limits, backward: Limits)
    requires var g := GraphOf(rows); a != b && KnownFile(g, a) && KnownFile(g, b)
    requires !Dependencies(GraphOf(rows), a, forward).truncated && !Dependents(GraphOf(rows), b, backward).truncated
    ensures b in Dependencies(GraphOf(rows), a, forward).nodes <==> a in Dependents(GraphOf(rows), b, backward).nodes
  {
    var g := GraphOf(rows);
    FoundMembers(g, Forward, File(a), forward, b);
    FoundMembers(g, Reverse, File(b), backward, a);
    GraphConverse(rows, Forward);
    GraphConverse(rows, Reverse);
    if Reachable(g, Forward, File(a), File(b)) {
      ReachableReversed(g, Forward, File(a), File(b));
    }
    if Reachable(g, Reverse, File(b), File(a)) {
      ReachableReversed(g, Reverse, File(b), File(a));
    }
  }

  // -- Invalidation ----------------------------------------------------------------------------

  datatype Gathered = Gathered(affected: set<string>, truncated: bool)

  function Remaining(lim: Limits, gathered: int): Limits {
    lim.(maxNodes := if lim.maxNodes - gathered < 0 then 0 else lim.maxNodes - gathered)
  }

  /** The union over the changed paths, each walk on the budget the earlier ones left. */
  ghost function Gather(g: Adjacency, changed: nat, todo: seq<string>, lim: Limits, acc: Gathered): Gathered
    decreases |todo|
  {
    if todo == [] then acc else
      var walk := Dependents(g, todo[0], Remaining(lim, |acc.affected| - changed));
      Gather(g, changed, todo[1..], lim, Gathered(acc.affected + ToSet(walk.nodes), acc.truncated || walk.truncated))
  }

  ghost function Invalidation(g: Adjacency, changed: set<string>, lim: Limits): Traversal {
    var r := Gather(g, |changed|, SortedSet(changed), lim, Gathered(changed, false));
    Traversal(SortedSet(r.affected), r.truncated)
  }

  lemma GatherStep(g: Adjacency, changed: nat, roots: seq<string>, k: nat, lim: Limits, acc: Gathered, next: Gathered)
    requires k < |roots|
    requires var walk := Dependents(g, roots[k], Remaining(lim, |acc.affected| - changed));
      next == Gathered(acc.affected + ToSet(walk.nodes), acc.truncated || walk.truncated)
    ensures Gather(g, changed, roots[k..], lim, acc) == Gather(g, changed, roots[k + 1..], lim, next)
  {
    assert roots[k..][0] == roots[k] && roots[k..][1..] == roots[k + 1..];
    GatherOnce(g, changed, roots[k..], lim, acc);
  }

  lemma GatherOnce(g: Adjacency, changed: nat, todo: seq<string>, lim: Limits, acc: Gathered)
    requires todo != []
    ensures var walk := Dependents(g, todo[0], Remaining(lim, |acc.affected| - changed));
      Gather(g, changed, todo, lim, acc) ==
      Gather(g, changed, todo[1..], lim, Gathered(acc.affected + ToSet(walk.nodes), acc.truncated || walk.truncated))
  {
  }

  method InvalidationSet(rows: seq<Row>, changed: seq<string>, lim: Limits) returns (t: Traversal)
    ensures t == Invalidation(GraphOf(RowSet(rows)), ToSet(changed), lim)
  {
    var unique := set p | p in changed;
    assert unique == ToSet(changed);
    var roots := SortStrings(unique);
    var affected, truncated := unique, false;
    ghost var g := GraphOf(RowSet(rows));
    assert roots[0..] == roots;
    for k := 0 to |roots|
      invariant GoesOn(g, |unique|, roots, k, lim, Gathered(affected, truncated), Gathered(unique, false))
    {
      affected, truncated := AddDependents(rows, |unique|, roots, k, lim, affected, truncated, Gathered(unique, false));
    }
    assert roots[|roots|..] == [];
    var nodes := SortStrings(affected);
    t := Traversal(nodes, truncated);
  }

  /** Gathering the rest of the roots from `acc` is gathering all of them from `start`. */
  ghost predicate GoesOn(g: Adjacency, changed: nat, roots: seq<string>, k: nat, lim: Limits, acc: Gathered,
                         start: Gathered)
    requires k <= |roots|
  {
    Gather(g, changed, roots[k..], lim, acc) == Gather(g, changed, roots, lim, start)
  }

  /** One changed path: walk its dependents on what is left of the budget. */
  method AddDependents(rows: seq<Row>, changed: nat, roots: seq<string>, k: nat, lim: Limits, affected0: set<string>,
                       truncated0: bool, ghost start: Gathered)
    returns (affected: set<string>, truncated: bool)
    requires k < |roots|
    requires GoesOn(GraphOf(RowSet(rows)), changed, roots, k, lim, Gathered(affected0, truncated0), start)
    ensures GoesOn(GraphOf(RowSet(rows)), changed, roots, k + 1, lim, Gathered(affected, truncated), start)
  {
    var walk := TraverseDependents(rows, roots[k], Remaining(lim, |affected0| - changed));
    affected := affected0 + (set p | p in walk.nodes);
    truncated := truncated0 || walk.truncated;
    GatherStep(GraphOf(RowSet(rows)), changed, roots, k, lim, Gathered(affected0, truncated0),
               Gathered(affected, truncated));
  }

  /** `p` transitively needs the changed name `c`. */
  ghost predicate TrueDependent(g: Adjacency, c: string, p: string) {
    Known(g, c) && Reachable(g, Reverse, StartNode(g, c), File(p)) && File(p) != StartNode(g, c)
  }

  lemma DependentsFacts(g: Adjacency, c: string, lim: Limits)
    ensures var t := Dependents(g, c, lim);
      && (forall p :: p in t.nodes ==> TrueDependent(g, c, p))
      && (!t.truncated ==> forall p :: TrueDependent(g, c, p) ==> p in t.nodes)
      && |ToSet(t.nodes)| <= (if lim.maxNodes < 0 then 0 else lim.maxNodes)
  {
    if Known(g, c) {
      var root := StartNode(g, c);
      forall p {
        FoundMembers(g, Reverse, root, lim, p);
      }
      EmitsExactlyWithinBudget(g, Reverse, root, lim);
      assert ToSet(Dependents(g, c, lim).nodes) == ToSet(Walked(g, Reverse, root, lim).emitted);
    } else {
      assert ToSet([]) == {};
    }
  }

  ghost function Max0(n: int): int {
    if n < 0 then 0 else n
  }

  /** One root: within the remaining budget, only true dependents, all of them unless truncated. */
  lemma GatherOne(g: Adjacency, changed: nat, c: string, lim: Limits, acc: set<string>)
    requires changed <= |acc| <= changed + Max0(lim.maxNodes)
    ensures var walk := Dependents(g, c, Remaining(lim, |acc| - changed)); var all := acc + ToSet(walk.nodes);
      && |acc| <= |all| <= changed + Max0(lim.maxNodes)
      && (forall p :: p in all ==> p in acc || TrueDependent(g, c, p))
      && (!walk.truncated ==> forall p :: TrueDependent(g, c, p) ==> p in all)
  {
    var walk := Dependents(g, c, Remaining(lim, |acc| - changed));
    DependentsFacts(g, c, Remaining(lim, |acc| - changed));
    UnionSize(acc, ToSet(walk.nodes));
    SubsetNotLarger(acc, acc + ToSet(walk.nodes));
  }

  ghost predicate GatherSound(g: Adjacency, changed: nat, todo: seq<string>, lim: Limits, acc: Gathered, r: Gathered) {
    && acc.affected <= r.affected && |r.affected| <= changed + Max0(lim.maxNodes)
    && (forall p :: p in r.affected ==> p in acc.affected || exists c :: c in todo && TrueDependent(g, c, p))
    && (acc.truncated ==> r.truncated)
    && (!r.truncated ==> forall c, p :: c in todo && TrueDependent(g, c, p) ==> p in r.affected)
  }

  lemma {:induction false} GatherFacts(g: Adjacency, changed: nat, todo: seq<string>, lim: Limits, acc: Gathered)
    requires changed <= |acc.affected| <= changed + Max0(lim.maxNodes)
    ensures GatherSound(g, changed, todo, lim, acc, Gather(g, changed, todo, lim, acc))
    decreases |todo|
  {
    if todo != [] {
      var walk := Dependents(g, todo[0], Remaining(lim, |acc.affected| - changed));
      var next := Gathered(acc.affected + ToSet(walk.nodes), acc.truncated || walk.truncated);
      assert |acc.affected| <= |next.affected| <= changed + Max0(lim.maxNodes) by {
        GatherOne(g, changed, todo[0], lim, acc.affected);
      }
      GatherFacts(g, changed, todo[1..], lim, next);
      GatherOnce(g, changed, todo, lim, acc);
      GatherOneMore(g, changed, todo, lim, acc, Gather(g, changed, todo, lim, acc));
    }
  }

  lemma GatherOneMore(g: Adjacency, changed: nat, todo: seq<string>, lim: Limits, acc: Gathered, r: Gathered)
    requires todo != [] && changed <= |acc.affected| <= changed + Max0(lim.maxNodes)
    requires var walk := Dependents(g, todo[0], Remaining(lim, |acc.affected| - changed));
      GatherSound(g, changed, todo[1..], lim,
        Gathered(acc.affected + ToSet(walk.nodes), acc.truncated || walk.truncated), r)
    ensures GatherSound(g, changed, todo, lim, acc, r)
  {
    var walk := Dependents(g, todo[0], Remaining(lim, |acc.affected| - changed));
    var next := Gathered(acc.affected + ToSet(walk.nodes), acc.truncated || walk.truncated);
    GatherOne(g, changed, todo[0], lim, acc.affected);
    GatherCons(g, changed, todo, lim, acc, next, r);
  }

  lemma GatherCons(g: Adjacency, changed: nat, todo: seq<string>, lim: Limits, acc: Gathered, next: Gathered,
                   r: Gathered)
    requires todo != [] && GatherSound(g, changed, todo[1..], lim, next, r)
    requires acc.affected <= next.affected && (acc.truncated ==> next.truncated)
    requires forall p :: p in next.affected ==> p in acc.affected || TrueDependent(g, todo[0], p)
    requires !next.truncated ==> forall p :: TrueDependent(g, todo[0], p) ==> p in next.affected
    ensures GatherSound(g, changed, todo, lim, acc, r)
  {
    assert forall c :: c in todo <==> c == todo[0] || c in todo[1..];
  }

  lemma UnionSize(a: set<string>, b: set<string>)
    ensures |a + b| <= |a| + |b|
  {
    assert |a + b| == |a| + |b| - |a * b|;
  }

  /** The invalidation set always holds every changed path, adds at most `max_nodes` others in
      total, adds only true dependents, and misses none unless it reports truncation. */
  lemma InvalidationIsSound(g: Adjacency, changed: set<string>, lim: Limits)
    ensures var t := Invalidation(g, changed, lim);
      && IsSortedSet(LexLe, ToSet(t.nodes), t.nodes)
      && changed <= ToSet(t.nodes)
      && |ToSet(t.nodes)| <= |changed| + Max0(lim.maxNodes)
      && (forall p :: p in t.nodes ==> p in changed || exists c :: c in changed && TrueDependent(g, c, p))
      && (!t.truncated ==> forall c, p :: c in changed && TrueDependent(g, c, p) ==> p in t.nodes)
  {
    GatherFacts(g, |changed|, SortedSet(changed), lim, Gathered(changed, false));
    var r := Gather(g, |changed|, SortedSet(changed), lim, Gathered(changed, false));
    assert ToSet(Invalidation(g, changed, lim).nodes) == r.affected;
  }
}
