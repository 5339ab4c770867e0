/** Whatever the budget refuses, a node is admitted at its shortest distance from the root. */
module WalkDistance {
  import opened Graph
  import opened Walk
  import opened WalkFacts

  ghost predicate NoLater(w: Wave, n: Node, k: nat) {
    n in w.depth ==> w.depth[n] <= k
  }

  /** No admitted node is nearer to the root than its admission depth says. */
  ghost predicate Nearest(g: Adjacency, dir: Direction, root: Node, w: Wave) {
    forall n, k: nat :: n in Within(g, dir, root, k) ==> NoLater(w, n, k)
  }

  /** While there is budget, the layers before that of the oldest frontier node, and that layer, are complete. */
  lemma {:induction false} LayersSoFar(g: Adjacency, dir: Direction, root: Node, lim: Limits, w: Wave, j: nat)
    requires WaveInv(g, dir, root, lim, w) && w.frontier != [] && |w.emitted| < lim.maxNodes
    requires j <= w.depth[w.frontier[0]] && (j > 0 ==> j <= lim.maxDepth)
    ensures forall n :: n in Within(g, dir, root, j) ==> n in w.depth && w.depth[n] <= j
  {
    if j > 0 {
      LayersSoFar(g, dir, root, lim, w, j - 1);
      forall n | n in Within(g, dir, root, j) ensures n in w.depth && w.depth[n] <= j {
        NearIsAdmitted(g, dir, root, lim, w, j, n);
      }
    }
  }

  lemma NearIsAdmitted(g: Adjacency, dir: Direction, root: Node, lim: Limits, w: Wave, j: nat, n: Node)
    requires (forall m :: m in w.frontier ==> m in w.depth) && Layered(w) && NeighborsSettled(g, dir, lim, w)
    requires w.frontier != [] && |w.emitted| < lim.maxNodes && 0 < j <= w.depth[w.frontier[0]] && j <= lim.maxDepth
    requires forall m :: m in Within(g, dir, root, j - 1) ==> m in w.depth && w.depth[m] <= j - 1
    requires n in Within(g, dir, root, j)
    ensures n in w.depth && w.depth[n] <= j
  {
    LayerBefore(g, dir, root, j, n);
    if n !in Within(g, dir, root, j - 1) {
      var p :| p in Within(g, dir, root, j - 1) && n in Succ(g, dir, p);
      LeftTheFrontier(w, p);
      SettledNeighbor(g, dir, lim, w, p, n, j);
    }
  }

  lemma SettledNeighbor(g: Adjacency, dir: Direction, lim: Limits, w: Wave, p: Node, n: Node, j: nat)
    requires NeighborsSettled(g, dir, lim, w) && |w.emitted| < lim.maxNodes && 0 < j <= lim.maxDepth
    requires p in w.depth && p !in w.frontier && w.depth[p] <= j - 1 && n in Succ(g, dir, p)
    ensures n in w.depth && w.depth[n] <= j
  {
    assert Admits(lim, w.depth[p] + 1, |w.emitted|);
  }

  lemma LeftTheFrontier(w: Wave, p: Node)
    requires (forall n :: n in w.frontier ==> n in w.depth) && Layered(w) && w.frontier != []
    requires p in w.depth && w.depth[p] < w.depth[w.frontier[0]]
    ensures p !in w.frontier
  {
  }

  lemma PopNearest(g: Adjacency, dir: Direction, root: Node, lim: Limits, w: Wave)
    requires WaveInv(g, dir, root, lim, w) && w.frontier != [] && Nearest(g, dir, root, w)
    ensures Nearest(g, dir, root, Pop(g, dir, lim, w))
  {
    var t := Pop(g, dir, lim, w);
    var added := PopAdmits(g, dir, lim, w);
    forall n, k: nat | n in Within(g, dir, root, k) ensures NoLater(t, n, k) {
      assert NoLater(w, n, k);
      if n in added && k <= w.depth[w.frontier[0]] {
        LayersSoFar(g, dir, root, lim, w, k);
      }
    }
  }

  lemma {:induction false} RunNearest(g: Adjacency, dir: Direction, root: Node, lim: Limits, w: Wave)
    requires WaveInv(g, dir, root, lim, w) && Nearest(g, dir, root, w)
    ensures Nearest(g, dir, root, Run(g, dir, root, lim, w))
    decreases |Universe(g) + {root} - w.depth.Keys|, |w.frontier|
  {
    if w.frontier != [] {
      PopShrinks(g, dir, root, lim, w);
      PopKeeps(g, dir, root, lim, w);
      PopNearest(g, dir, root, lim, w);
      RunNearest(g, dir, root, lim, Pop(g, dir, lim, w));
    }
  }

  /** For any limits: every admitted node lies exactly as far from the root as the depth it was admitted at. */
  lemma DepthIsDistance(g: Adjacency, dir: Direction, root: Node, lim: Limits)
    ensures var w := Walked(g, dir, root, lim);
      forall n :: n in w.depth ==>
        n in Within(g, dir, root, w.depth[n]) && forall k: nat :: n in Within(g, dir, root, k) ==> w.depth[n] <= k
  {
    WalkedInv(g, dir, root, lim);
    StartInv(g, dir, root, lim);
    RunNearest(g, dir, root, lim, Start(root));
    var w := Walked(g, dir, root, lim);
    forall n, k: nat | n in w.depth && n in Within(g, dir, root, k) ensures w.depth[n] <= k {
      assert NoLater(w, n, k);
    }
  }
}
