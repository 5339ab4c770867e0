/** Exactness of the bounded walk: closure, shortest distance, budget and truncation. */
module WalkFacts {
  import opened Collections
  import opened Graph
  import opened Walk

  // -- The invariant of a walk -----------------------------------------------------------------

  ghost predicate Layered(w: Wave)
    requires forall n :: n in w.frontier ==> n in w.depth
  {
    && (forall i, j :: 0 <= i < j < |w.frontier| ==>
          w.frontier[i] != w.frontier[j] && w.depth[w.frontier[i]] <= w.depth[w.frontier[j]])
    && (w.frontier != [] ==> forall n :: n in w.depth ==>
          w.depth[n] <= w.depth[w.frontier[0]] + (if n in w.frontier then 1 else 0))
  }

  ghost predicate Placed(g: Adjacency, dir: Direction, root: Node, lim: Limits, w: Wave) {
    && root in w.depth && w.depth[root] == 0
    && (forall n :: n in w.depth ==>
          n in Within(g, dir, root, w.depth[n]) && (n != root ==> w.depth[n] <= lim.maxDepth))
  }

  ghost predicate Emits(root: Node, lim: Limits, w: Wave) {
    && (forall p :: p in w.emitted <==> File(p) in w.depth && File(p) != root)
    && (forall i, j :: 0 <= i < j < |w.emitted| ==> w.emitted[i] != w.emitted[j])
    && (w.emitted != [] ==> |w.emitted| <= lim.maxNodes)
  }

  /** Every neighbour of a node that left the frontier was admitted in time or refused for good. */
  ghost predicate Settled(g: Adjacency, dir: Direction, lim: Limits, w: Wave) {
    NeighborsSettled(g, dir, lim, w) && (w.truncated ==> SomeoneLeftOut(g, dir, w))
  }

  ghost predicate NeighborsSettled(g: Adjacency, dir: Direction, lim: Limits, w: Wave) {
    forall p, n :: p in w.depth && p !in w.frontier && n in Succ(g, dir, p) ==>
      if n in w.depth then w.depth[n] <= w.depth[p] + 1
      else w.truncated && !Admits(lim, w.depth[p] + 1, |w.emitted|)
  }

  ghost predicate SomeoneLeftOut(g: Adjacency, dir: Direction, w: Wave) {
    exists p, n :: p in w.depth && p !in w.frontier && n in Succ(g, dir, p) && n !in w.depth
  }

  ghost predicate WaveInv(g: Adjacency, dir: Direction, root: Node, lim: Limits, w: Wave) {
    Scoped(g, root, w) && Layered(w) && Placed(g, dir, root, lim, w) && Emits(root, lim, w) && Settled(g, dir, lim, w)
  }

  lemma StartInv(g: Adjacency, dir: Direction, root: Node, lim: Limits)
    ensures WaveInv(g, dir, root, lim, Start(root))
  {
  }

  // -- One pop keeps it ------------------------------------------------------------------------

  /** `t` is `w` with its first node popped and `added` admitted behind the frontier. */
  ghost predicate Popped(lim: Limits, w: Wave, t: Wave, added: seq<Node>)
    requires w.frontier != [] && w.frontier[0] in w.depth
  {
    Extends(lim, w.(frontier := w.frontier[1..]), t, added, w.depth[w.frontier[0]] + 1)
  }

  lemma FrontierKept(lim: Limits, w: Wave, t: Wave, added: seq<Node>)
    requires forall n :: n in w.frontier ==> n in w.depth
    requires w.frontier != [] && Layered(w) && Popped(lim, w, t, added)
    ensures forall n :: n in t.frontier ==> n in t.depth
    ensures forall i, j :: 0 <= i < j < |t.frontier| ==>
      t.frontier[i] != t.frontier[j] && t.depth[t.frontier[i]] <= t.depth[t.frontier[j]]
    ensures forall i :: 0 <= i < |t.frontier| ==> t.depth[t.frontier[i]] >= w.depth[w.frontier[0]]
  {
    var rest := w.frontier[1..];
    assert t.frontier == rest + added;
    assert forall n :: n in rest ==> n in w.frontier;
    forall i | 0 <= i < |t.frontier|
      ensures t.frontier[i] in t.depth && t.depth[t.frontier[i]] >= w.depth[w.frontier[0]]
    {
      if i < |rest| { assert t.frontier[i] == w.frontier[i + 1]; } else { assert t.frontier[i] in added; }
    }
    forall i, j | 0 <= i < j < |t.frontier|
      ensures t.frontier[i] != t.frontier[j] && t.depth[t.frontier[i]] <= t.depth[t.frontier[j]]
    {
      if j < |rest| {
        assert t.frontier[i] == w.frontier[i + 1] && t.frontier[j] == w.frontier[j + 1];
      } else {
        assert t.frontier[j] == added[j - |rest|] && t.frontier[j] in added;
        if i < |rest| {
          assert t.frontier[i] == w.frontier[i + 1] && t.frontier[i] in w.frontier;
        } else {
          assert t.frontier[i] == added[i - |rest|];
        }
      }
    }
  }

  lemma LayeredKept(lim: Limits, w: Wave, t: Wave, added: seq<Node>)
    requires forall n :: n in w.frontier ==> n in w.depth
    requires w.frontier != [] && Layered(w) && Popped(lim, w, t, added)
    ensures (forall n :: n in t.frontier ==> n in t.depth) && Layered(t)
  {
    FrontierKept(lim, w, t, added);
    if t.frontier != [] {
      var h := t.depth[t.frontier[0]];
      var rest := w.frontier[1..];
      assert t.frontier == rest + added && w.frontier == [w.frontier[0]] + rest;
      forall n | n in t.depth ensures t.depth[n] <= h + (if n in t.frontier then 1 else 0) {
        if n in added {
          assert n in t.frontier;
        } else if n in rest {
          assert n in t.frontier && n in w.frontier;
        }
      }
    }
  }

  lemma PlacedKept(g: Adjacency, dir: Direction, root: Node, lim: Limits, w: Wave, t: Wave, added: seq<Node>)
    requires w.frontier != [] && w.frontier[0] in w.depth
    requires Placed(g, dir, root, lim, w) && Popped(lim, w, t, added)
    requires forall n :: n in added ==> n in Succ(g, dir, w.frontier[0])
    ensures Placed(g, dir, root, lim, t)
  {
    var x, d := w.frontier[0], w.depth[w.frontier[0]];
    forall n | n in added ensures n in Within(g, dir, root, d + 1) {
      NextLayer(g, dir, root, d, x, n);
    }
    PlacedWith(g, dir, root, lim, w, t, added, d + 1);
  }

  lemma PlacedWith(g: Adjacency, dir: Direction, root: Node, lim: Limits, w: Wave, t: Wave, added: seq<Node>,
                   depth: nat)
    requires Placed(g, dir, root, lim, w)
    requires forall n :: n in t.depth <==> n in w.depth || n in added
    requires forall n :: n in w.depth ==> t.depth[n] == w.depth[n]
    requires forall n :: n in added ==>
      n !in w.depth && t.depth[n] == depth && n in Within(g, dir, root, depth) && depth <= lim.maxDepth
    ensures Placed(g, dir, root, lim, t)
  {
  }

  lemma NextLayer(g: Adjacency, dir: Direction, root: Node, d: nat, x: Node, n: Node)
    requires x in Within(g, dir, root, d) && n in Succ(g, dir, x)
    ensures n in Within(g, dir, root, d + 1)
  {
  }

  lemma {:induction false} PathsMembers(nodes: seq<Node>)
    requires forall i, j :: 0 <= i < j < |nodes| ==> nodes[i] != nodes[j]
    ensures forall p :: p in Paths(nodes) <==> File(p) in nodes
    ensures forall i, j :: 0 <= i < j < |Paths(nodes)| ==> Paths(nodes)[i] != Paths(nodes)[j]
  {
    if nodes != [] {
      var init, last := nodes[..|nodes| - 1], nodes[|nodes| - 1];
      PathsMembers(init);
      assert nodes == init + [last];
    }
  }

  lemma EmitsKept(root: Node, lim: Limits, w: Wave, t: Wave, added: seq<Node>)
    requires w.frontier != [] && w.frontier[0] in w.depth && root in w.depth
    requires Emits(root, lim, w) && Popped(lim, w, t, added)
    ensures Emits(root, lim, t)
  {
    PathsMembers(added);
    assert forall p :: p in t.emitted <==> p in w.emitted || p in Paths(added);
    forall i, j | 0 <= i < j < |t.emitted| ensures t.emitted[i] != t.emitted[j] {
      if i < |w.emitted| <= j {
        assert t.emitted[i] in w.emitted && t.emitted[j] in Paths(added);
      }
    }
    if added == [] {
      assert t.emitted == w.emitted;
    }
  }

  /** Who left the frontier: the popped node, and whoever had left it before. */
  lemma WhoLeft(lim: Limits, w: Wave, t: Wave, added: seq<Node>)
    requires forall n :: n in w.frontier ==> n in w.depth
    requires w.frontier != [] && Layered(w) && Popped(lim, w, t, added)
    ensures forall p :: (p in t.depth && p !in t.frontier) <==>
      (p in w.depth && (p == w.frontier[0] || p !in w.frontier))
    ensures added == [] ==> t.depth == w.depth && t.emitted == w.emitted
  {
    var x, rest := w.frontier[0], w.frontier[1..];
    assert w.frontier == [x] + rest && t.frontier == rest + added;
    assert forall i :: 0 <= i < |rest| ==> rest[i] == w.frontier[i + 1];
    if added == [] {
      assert t.depth.Keys == w.depth.Keys;
    }
  }

  lemma SettledKept(g: Adjacency, dir: Direction, lim: Limits, w: Wave, t: Wave, added: seq<Node>)
    requires forall n :: n in w.frontier ==> n in w.depth
    requires w.frontier != [] && Layered(w) && Settled(g, dir, lim, w) && Popped(lim, w, t, added)
    requires Refuses(lim, w.(frontier := w.frontier[1..]), Succ(g, dir, w.frontier[0]), w.depth[w.frontier[0]], t)
    ensures Settled(g, dir, lim, t)
  {
    NeighborsKept(g, dir, lim, w, t, added);
    if t.truncated {
      SomeoneRefused(g, dir, lim, w, t, added);
    }
  }

  lemma NeighborsKept(g: Adjacency, dir: Direction, lim: Limits, w: Wave, t: Wave, added: seq<Node>)
    requires forall m :: m in w.frontier ==> m in w.depth
    requires w.frontier != [] && Layered(w) && NeighborsSettled(g, dir, lim, w) && Popped(lim, w, t, added)
    requires Refuses(lim, w.(frontier := w.frontier[1..]), Succ(g, dir, w.frontier[0]), w.depth[w.frontier[0]], t)
    ensures NeighborsSettled(g, dir, lim, t)
  {
    forall p, n | p in t.depth && p !in t.frontier && n in Succ(g, dir, p)
      ensures if n in t.depth then t.depth[n] <= t.depth[p] + 1
              else t.truncated && !Admits(lim, t.depth[p] + 1, |t.emitted|)
    {
      PairSettled(g, dir, lim, w, t, added, p, n);
    }
  }

  lemma PairSettled(g: Adjacency, dir: Direction, lim: Limits, w: Wave, t: Wave, added: seq<Node>, p: Node, n: Node)
    requires forall m :: m in w.frontier ==> m in w.depth
    requires w.frontier != [] && Layered(w) && NeighborsSettled(g, dir, lim, w) && Popped(lim, w, t, added)
    requires Refuses(lim, w.(frontier := w.frontier[1..]), Succ(g, dir, w.frontier[0]), w.depth[w.frontier[0]], t)
    requires p in t.depth && p !in t.frontier && n in Succ(g, dir, p)
    ensures if n in t.depth then t.depth[n] <= t.depth[p] + 1
            else t.truncated && !Admits(lim, t.depth[p] + 1, |t.emitted|)
  {
    WhoLeft(lim, w, t, added);
    if p == w.frontier[0] {
      PoppedSettles(lim, w, t, added, Succ(g, dir, p), n);
    } else {
      OlderStaysSettled(g, dir, lim, w, t, added, p, n);
    }
  }

  /** A neighbour of the popped node was known, admitted one deeper, or refused. */
  lemma PoppedSettles(lim: Limits, w: Wave, t: Wave, added: seq<Node>, neighbors: seq<Node>, n: Node)
    requires forall m :: m in w.frontier ==> m in w.depth
    requires w.frontier != [] && Layered(w) && Popped(lim, w, t, added) && n in neighbors
    requires Refuses(lim, w.(frontier := w.frontier[1..]), neighbors, w.depth[w.frontier[0]], t)
    ensures w.frontier[0] in t.depth
    ensures var p := w.frontier[0];
      if n in t.depth then t.depth[n] <= t.depth[p] + 1 else t.truncated && !Admits(lim, t.depth[p] + 1, |t.emitted|)
  {
    assert w.frontier[0] in w.frontier;
  }

  lemma OlderStaysSettled(g: Adjacency, dir: Direction, lim: Limits, w: Wave, t: Wave, added: seq<Node>, p: Node,
                          n: Node)
    requires forall m :: m in w.frontier ==> m in w.depth
    requires w.frontier != [] && Layered(w) && NeighborsSettled(g, dir, lim, w) && Popped(lim, w, t, added)
    requires w.truncated ==> t.truncated
    requires p in w.depth && p !in w.frontier && n in Succ(g, dir, p)
    ensures p in t.depth
    ensures if n in t.depth then t.depth[n] <= t.depth[p] + 1
            else t.truncated && !Admits(lim, t.depth[p] + 1, |t.emitted|)
  {
    if n !in w.depth {
      NothingAfterRefusal(lim, w, t, added, p);
      WhoLeft(lim, w, t, added);
    }
  }

  /** Once a candidate was refused on depth or budget, no later node is admitted. */
  lemma NothingAfterRefusal(lim: Limits, w: Wave, t: Wave, added: seq<Node>, p: Node)
    requires forall n :: n in w.frontier ==> n in w.depth
    requires w.frontier != [] && Layered(w) && Popped(lim, w, t, added)
    requires p in w.depth && p !in w.frontier && !Admits(lim, w.depth[p] + 1, |w.emitted|)
    ensures added == []
  {
  }

  lemma SomeoneRefused(g: Adjacency, dir: Direction, lim: Limits, w: Wave, t: Wave, added: seq<Node>)
    requires forall n :: n in w.frontier ==> n in w.depth
    requires w.frontier != [] && Layered(w) && Settled(g, dir, lim, w) && Popped(lim, w, t, added)
    requires Refuses(lim, w.(frontier := w.frontier[1..]), Succ(g, dir, w.frontier[0]), w.depth[w.frontier[0]], t)
    requires t.truncated
    ensures SomeoneLeftOut(g, dir, t)
  {
    if w.truncated {
      OlderLeftOut(g, dir, lim, w, t, added);
    } else {
      NeighborLeftOut(g, dir, lim, w, t, added);
    }
  }

  lemma OlderLeftOut(g: Adjacency, dir: Direction, lim: Limits, w: Wave, t: Wave, added: seq<Node>)
    requires forall m :: m in w.frontier ==> m in w.depth
    requires w.frontier != [] && Layered(w) && Popped(lim, w, t, added)
    requires NeighborsSettled(g, dir, lim, w) && SomeoneLeftOut(g, dir, w)
    ensures SomeoneLeftOut(g, dir, t)
  {
    var p, n :| p in w.depth && p !in w.frontier && n in Succ(g, dir, p) && n !in w.depth;
    StaysLeftOut(lim, w, t, added, p, n);
  }

  lemma NeighborLeftOut(g: Adjacency, dir: Direction, lim: Limits, w: Wave, t: Wave, added: seq<Node>)
    requires forall m :: m in w.frontier ==> m in w.depth
    requires w.frontier != [] && Layered(w) && Popped(lim, w, t, added) && !w.truncated && t.truncated
    requires Refuses(lim, w.(frontier := w.frontier[1..]), Succ(g, dir, w.frontier[0]), w.depth[w.frontier[0]], t)
    ensures SomeoneLeftOut(g, dir, t)
  {
    var n :| n in Succ(g, dir, w.frontier[0]) && n !in t.depth;
    PoppedLeft(lim, w, t, added);
  }

  lemma StaysLeftOut(lim: Limits, w: Wave, t: Wave, added: seq<Node>, p: Node, n: Node)
    requires forall m :: m in w.frontier ==> m in w.depth
    requires w.frontier != [] && Layered(w) && Popped(lim, w, t, added)
    requires p in w.depth && p !in w.frontier && n !in w.depth && !Admits(lim, w.depth[p] + 1, |w.emitted|)
    ensures p in t.depth && p !in t.frontier && n !in t.depth
  {
    NothingAfterRefusal(lim, w, t, added, p);
    WhoLeft(lim, w, t, added);
  }

  lemma PoppedLeft(lim: Limits, w: Wave, t: Wave, added: seq<Node>)
    requires forall m :: m in w.frontier ==> m in w.depth
    requires w.frontier != [] && Layered(w) && Popped(lim, w, t, added)
    ensures w.frontier[0] in t.depth && w.frontier[0] !in t.frontier
  {
    WhoLeft(lim, w, t, added);
    assert w.frontier[0] in w.frontier;
  }

  lemma PopKeeps(g: Adjacency, dir: Direction, root: Node, lim: Limits, w: Wave)
    requires WaveInv(g, dir, root, lim, w) && w.frontier != []
    ensures WaveInv(g, dir, root, lim, Pop(g, dir, lim, w))
  {
    var x, d := w.frontier[0], w.depth[w.frontier[0]];
    var t := Pop(g, dir, lim, w);
    var added := PopAdmits(g, dir, lim, w);
    PopGrows(g, dir, root, lim, w);
    LayeredKept(lim, w, t, added);
    PlacedKept(g, dir, root, lim, w, t, added);
    EmitsKept(root, lim, w, t, added);
    SettledKept(g, dir, lim, w, t, added);
  }

  lemma PopAdmits(g: Adjacency, dir: Direction, lim: Limits, w: Wave) returns (added: seq<Node>)
    requires w.frontier != [] && w.frontier[0] in w.depth
    ensures Popped(lim, w, Pop(g, dir, lim, w), added)
    ensures forall n :: n in added ==> n in Succ(g, dir, w.frontier[0])
    ensures Refuses(lim, w.(frontier := w.frontier[1..]), Succ(g, dir, w.frontier[0]), w.depth[w.frontier[0]],
        Pop(g, dir, lim, w))
  {
    var x, d := w.frontier[0], w.depth[w.frontier[0]];
    var rest := w.(frontier := w.frontier[1..]);
    added := ScanAdmits(lim, rest, Succ(g, dir, x), d);
    ScanRefuses(lim, rest, Succ(g, dir, x), d);
  }

  lemma {:induction false} RunKeeps(g: Adjacency, dir: Direction, root: Node, lim: Limits, w: Wave)
    requires WaveInv(g, dir, root, lim, w)
    ensures WaveInv(g, dir, root, lim, Run(g, dir, root, lim, w)) && Run(g, dir, root, lim, w).frontier == []
    decreases |Universe(g) + {root} - w.depth.Keys|, |w.frontier|
  {
    if w.frontier != [] {
      PopShrinks(g, dir, root, lim, w);
      PopKeeps(g, dir, root, lim, w);
      RunKeeps(g, dir, root, lim, Pop(g, dir, lim, w));
    }
  }

  // -- What the finished walk has found ---------------------------------------------------------

  ghost function Walked(g: Adjacency, dir: Direction, root: Node, lim: Limits): Wave {
    Run(g, dir, root, lim, Start(root))
  }

  lemma WalkedInv(g: Adjacency, dir: Direction, root: Node, lim: Limits)
    ensures WaveInv(g, dir, root, lim, Walked(g, dir, root, lim)) && Walked(g, dir, root, lim).frontier == []
  {
    StartInv(g, dir, root, lim);
    RunKeeps(g, dir, root, lim, Start(root));
  }

  /** Truncation is reported exactly when some reachable node, file or symbol, was left out. */
  lemma TruncatedIffIncomplete(g: Adjacency, dir: Direction, root: Node, lim: Limits)
    ensures var w := Walked(g, dir, root, lim);
      && (forall n :: n in w.depth ==> Reachable(g, dir, root, n))
      && (w.truncated <==> exists n :: Reachable(g, dir, root, n) && n !in w.depth)
  {
    WalkedInv(g, dir, root, lim);
    var w := Walked(g, dir, root, lim);
    if w.truncated {
      var n := LeftOutIsReachable(g, dir, root, lim, w);
    } else {
      forall n | Reachable(g, dir, root, n) ensures n in w.depth {
        CompleteCovers(g, dir, root, lim, w, n);
      }
    }
  }

  lemma LeftOutIsReachable(g: Adjacency, dir: Direction, root: Node, lim: Limits, w: Wave) returns (n: Node)
    requires Placed(g, dir, root, lim, w) && SomeoneLeftOut(g, dir, w)
    ensures Reachable(g, dir, root, n) && n !in w.depth
  {
    var p, m :| p in w.depth && p !in w.frontier && m in Succ(g, dir, p) && m !in w.depth;
    NextLayer(g, dir, root, w.depth[p], p, m);
    n := m;
  }

  lemma CompleteCovers(g: Adjacency, dir: Direction, root: Node, lim: Limits, w: Wave, n: Node)
    requires root in w.depth && NeighborsSettled(g, dir, lim, w) && w.frontier == [] && !w.truncated
    requires Reachable(g, dir, root, n)
    ensures n in w.depth
  {
    var k: nat :| n in Within(g, dir, root, k);
    ClosedCovers(g, dir, root, w.depth.Keys, k);
  }

  lemma {:induction false} ClosedCovers(g: Adjacency, dir: Direction, root: Node, s: set<Node>, k: nat)
    requires root in s && forall p, n :: p in s && n in Succ(g, dir, p) ==> n in s
    ensures Within(g, dir, root, k) <= s
  {
    if k > 0 {
      ClosedCovers(g, dir, root, s, k - 1);
    }
  }

  ghost function FilesWithin(g: Adjacency, dir: Direction, root: Node, k: nat): set<string> {
    set n | n in Within(g, dir, root, k) && n.File? && n != root :: n.path
  }

  function Depth(lim: Limits): nat {
    if lim.maxDepth < 0 then 0 else lim.maxDepth
  }

  /** Whoever was left out lies beyond the depth limit: the node budget refused nobody. */
  ghost predicate OnlyDepthRefuses(g: Adjacency, dir: Direction, lim: Limits, w: Wave) {
    forall p, n :: p in w.depth && n in Succ(g, dir, p) && n !in w.depth ==> lim.maxDepth < w.depth[p] + 1
  }

  lemma BudgetLeft(g: Adjacency, dir: Direction, lim: Limits, w: Wave)
    requires Settled(g, dir, lim, w) && w.frontier == [] && |w.emitted| < lim.maxNodes
    ensures OnlyDepthRefuses(g, dir, lim, w)
  {
  }

  /** When the budget refuses nobody, depth alone decides: every layer is complete. */
  lemma {:induction false} LayersComplete(g: Adjacency, dir: Direction, root: Node, lim: Limits, w: Wave, k: nat)
    requires root in w.depth && w.depth[root] == 0
    requires Settled(g, dir, lim, w) && w.frontier == []
    requires OnlyDepthRefuses(g, dir, lim, w) && k <= Depth(lim)
    ensures forall n :: n in Within(g, dir, root, k) ==> n in w.depth && w.depth[n] <= k
  {
    if k > 0 {
      LayersComplete(g, dir, root, lim, w, k - 1);
      forall n | n in Within(g, dir, root, k) ensures n in w.depth && w.depth[n] <= k {
        LayerBefore(g, dir, root, k, n);
        if n !in Within(g, dir, root, k - 1) {
          var p :| p in Within(g, dir, root, k - 1) && n in Succ(g, dir, p);
          NextSettled(g, dir, lim, w, p, n, k);
        }
      }
    }
  }

  lemma NextSettled(g: Adjacency, dir: Direction, lim: Limits, w: Wave, p: Node, n: Node, k: nat)
    requires Settled(g, dir, lim, w) && w.frontier == []
    requires OnlyDepthRefuses(g, dir, lim, w) && 0 < k <= Depth(lim)
    requires p in w.depth && w.depth[p] <= k - 1 && n in Succ(g, dir, p)
    ensures n in w.depth && w.depth[n] <= k
  {
    assert !(lim.maxDepth < w.depth[p] + 1);
  }

  lemma LayerBefore(g: Adjacency, dir: Direction, root: Node, k: nat, n: Node)
    requires k > 0 && n in Within(g, dir, root, k)
    ensures n in Within(g, dir, root, k - 1) || exists p :: p in Within(g, dir, root, k - 1) && n in Succ(g, dir, p)
  {
  }

  ghost function ToSet(s: seq<string>): set<string> {
    set p | p in s
  }

  /** The walk emits min(budget, number of files within the depth limit) files, all of them real;
      so it emits exactly the files within the depth limit if and only if the budget covers them. */
  lemma EmitsExactlyWithinBudget(g: Adjacency, dir: Direction, root: Node, lim: Limits)
    ensures var w, near := Walked(g, dir, root, lim), FilesWithin(g, dir, root, Depth(lim));
      && ToSet(w.emitted) <= near
      && |ToSet(w.emitted)| == |w.emitted|
      && (near != {} ==> (ToSet(w.emitted) == near <==> |near| <= lim.maxNodes))
      && |w.emitted| == (if lim.maxNodes < 0 then 0 else if |near| <= lim.maxNodes then |near| else lim.maxNodes)
  {
    WalkedInv(g, dir, root, lim);
    var w, near := Walked(g, dir, root, lim), FilesWithin(g, dir, root, Depth(lim));
    forall p | p in w.emitted ensures p in near {
      var n := File(p);
      WithinGrows(g, dir, root, w.depth[n], Depth(lim));
    }
    DistinctSize(w.emitted);
    if |w.emitted| < lim.maxNodes {
      BudgetLeft(g, dir, lim, w);
      LayersComplete(g, dir, root, lim, w, Depth(lim));
      assert near <= ToSet(w.emitted);
    } else {
      SubsetNotLarger(ToSet(w.emitted), near);
      if |near| <= |w.emitted| {
        SubsetEqual(ToSet(w.emitted), near);
      }
    }
  }

  lemma {:induction false} DistinctSize(s: seq<string>)
    requires forall i, j :: 0 <= i < j < |s| ==> s[i] != s[j]
    ensures |ToSet(s)| == |s|
  {
    if s != [] {
      var init := s[..|s| - 1];
      DistinctSize(init);
      assert s == init + [s[|s| - 1]];
      assert ToSet(s) == ToSet(init) + {s[|s| - 1]};
    } else {
      assert ToSet(s) == {};
    }
  }

  lemma SubsetEqual<T>(a: set<T>, b: set<T>)
    requires a <= b && |b| <= |a|
    ensures a == b
  {
    if x :| x in b && x !in a {
      ProperSubsetSmaller(a, b, x);
    }
  }

  /** The walk admits exactly the nodes within the depth limit if and only if the budget refuses nobody, as when it
      exceeds the number of near files; then truncation means exactly that some node lies one step further. */
  lemma DepthCutIsExact(g: Adjacency, dir: Direction, root: Node, lim: Limits)
    ensures var w, d := Walked(g, dir, root, lim), Depth(lim);
      && (w.depth.Keys == Within(g, dir, root, d) <==> OnlyDepthRefuses(g, dir, lim, w))
      && (|FilesWithin(g, dir, root, d)| < lim.maxNodes ==> OnlyDepthRefuses(g, dir, lim, w))
      && (OnlyDepthRefuses(g, dir, lim, w) ==>
            (w.truncated <==> Within(g, dir, root, d + 1) != Within(g, dir, root, d)))
  {
    WalkedInv(g, dir, root, lim);
    EmitsExactlyWithinBudget(g, dir, root, lim);
    var w, d := Walked(g, dir, root, lim), Depth(lim);
    if |FilesWithin(g, dir, root, d)| < lim.maxNodes {
      BudgetLeft(g, dir, lim, w);
    }
    if OnlyDepthRefuses(g, dir, lim, w) {
      AllWithin(g, dir, root, lim, w);
      TruncatedBeyond(g, dir, root, lim, w);
    }
    if w.depth.Keys == Within(g, dir, root, d) {
      WithinIsAll(g, dir, root, lim, w);
    }
  }

  lemma AllWithin(g: Adjacency, dir: Direction, root: Node, lim: Limits, w: Wave)
    requires WaveInv(g, dir, root, lim, w) && w.frontier == [] && OnlyDepthRefuses(g, dir, lim, w)
    ensures w.depth.Keys == Within(g, dir, root, Depth(lim))
  {
    LayersComplete(g, dir, root, lim, w, Depth(lim));
    forall n | n in w.depth ensures n in Within(g, dir, root, Depth(lim)) {
      WithinGrows(g, dir, root, w.depth[n], Depth(lim));
    }
  }

  lemma WithinIsAll(g: Adjacency, dir: Direction, root: Node, lim: Limits, w: Wave)
    requires Placed(g, dir, root, lim, w) && w.depth.Keys == Within(g, dir, root, Depth(lim))
    ensures OnlyDepthRefuses(g, dir, lim, w)
  {
    forall p, n | p in w.depth && n in Succ(g, dir, p) && n !in w.depth ensures lim.maxDepth < w.depth[p] + 1 {
      if w.depth[p] + 1 <= lim.maxDepth {
        StepStaysWithin(g, dir, root, w.depth[p], p, n, Depth(lim));
        assert false;
      }
    }
  }

  lemma StepStaysWithin(g: Adjacency, dir: Direction, root: Node, k: nat, p: Node, n: Node, d: nat)
    requires p in Within(g, dir, root, k) && n in Succ(g, dir, p) && k + 1 <= d
    ensures n in Within(g, dir, root, d)
  {
    NextLayer(g, dir, root, k, p, n);
    WithinGrows(g, dir, root, k + 1, d);
  }

  lemma TruncatedBeyond(g: Adjacency, dir: Direction, root: Node, lim: Limits, w: Wave)
    requires Settled(g, dir, lim, w) && w.frontier == [] && root in w.depth
    requires w.depth.Keys == Within(g, dir, root, Depth(lim))
    ensures w.truncated <==> Within(g, dir, root, Depth(lim) + 1) != Within(g, dir, root, Depth(lim))
  {
    if w.truncated {
      LeftOutLeaves(g, dir, root, w, Depth(lim));
    } else {
      UntruncatedIsClosed(g, dir, lim, w);
      ClosedLayer(g, dir, root, w.depth.Keys, Depth(lim));
    }
  }

  lemma LeftOutLeaves(g: Adjacency, dir: Direction, root: Node, w: Wave, k: nat)
    requires SomeoneLeftOut(g, dir, w) && w.depth.Keys == Within(g, dir, root, k)
    ensures Within(g, dir, root, k + 1) != Within(g, dir, root, k)
  {
    var p, n :| p in w.depth && p !in w.frontier && n in Succ(g, dir, p) && n !in w.depth;
    LeavesLayer(g, dir, root, k, p, n);
  }

  lemma UntruncatedIsClosed(g: Adjacency, dir: Direction, lim: Limits, w: Wave)
    requires NeighborsSettled(g, dir, lim, w) && w.frontier == [] && !w.truncated
    ensures forall p, n :: p in w.depth.Keys && n in Succ(g, dir, p) ==> n in w.depth.Keys
  {
  }

  lemma LeavesLayer(g: Adjacency, dir: Direction, root: Node, k: nat, p: Node, n: Node)
    requires p in Within(g, dir, root, k) && n in Succ(g, dir, p) && n !in Within(g, dir, root, k)
    ensures Within(g, dir, root, k + 1) != Within(g, dir, root, k)
  {
    NextLayer(g, dir, root, k, p, n);
  }

  lemma ClosedLayer(g: Adjacency, dir: Direction, root: Node, s: set<Node>, k: nat)
    requires root in s && forall p, n :: p in s && n in Succ(g, dir, p) ==> n in s
    requires s == Within(g, dir, root, k)
    ensures Within(g, dir, root, k + 1) == Within(g, dir, root, k)
  {
    ClosedCovers(g, dir, root, s, k + 1);
    WithinGrows(g, dir, root, k, k + 1);
  }
}
