/** The bounded breadth-first walk as a function, and what it finds. */
module Walk {
  import opened Collections
  import opened Graph

  /** Visited nodes with the depth they were admitted at, the FIFO frontier, the files emitted so far. */
  datatype Wave = Wave(depth: map<Node, nat>, frontier: seq<Node>, emitted: seq<string>, truncated: bool)

  datatype Limits = Limits(maxDepth: int, maxNodes: int)

  /** `should_visit_host`, for a node that is not visited yet. */
  predicate Admits(lim: Limits, depth: nat, used: nat) {
    !(lim.maxDepth < depth) && !(lim.maxNodes <= used)
  }

  function Admit(w: Wave, n: Node, depth: nat): Wave {
    Wave(w.depth[n := depth], w.frontier + [n], if n.File? then w.emitted + [n.path] else w.emitted, w.truncated)
  }

  /** Offer the neighbours of a node admitted at `depth`, in order. */
  function Scan(lim: Limits, w: Wave, neighbors: seq<Node>, depth: nat): Wave
    decreases |neighbors|
  {
    if neighbors == [] then w else
      var n := neighbors[0];
      var next := if n in w.depth then w
                  else if Admits(lim, depth + 1, |w.emitted|) then Admit(w, n, depth + 1)
                  else w.(truncated := true);
      Scan(lim, next, neighbors[1..], depth)
  }

  ghost predicate Scoped(g: Adjacency, root: Node, w: Wave) {
    && w.depth.Keys <= Universe(g) + {root}
    && (forall n :: n in w.frontier ==> n in w.depth)
  }

  /** Pop the oldest node and scan its neighbours. */
  function Pop(g: Adjacency, dir: Direction, lim: Limits, w: Wave): Wave
    requires w.frontier != [] && w.frontier[0] in w.depth
  {
    Scan(lim, w.(frontier := w.frontier[1..]), Succ(g, dir, w.frontier[0]), w.depth[w.frontier[0]])
  }

  ghost function Run(g: Adjacency, dir: Direction, root: Node, lim: Limits, w: Wave): Wave
    requires Scoped(g, root, w)
    decreases |Universe(g) + {root} - w.depth.Keys|, |w.frontier|
  {
    if w.frontier == [] then w else
      PopShrinks(g, dir, root, lim, w);
      Run(g, dir, root, lim, Pop(g, dir, lim, w))
  }

  function Start(root: Node): Wave {
    Wave(map[root := 0], [root], [], false)
  }

  /** The files among `nodes`, in order. */
  function Paths(nodes: seq<Node>): seq<string> {
    if nodes == [] then [] else
      var init := Paths(nodes[..|nodes| - 1]);
      var last := nodes[|nodes| - 1];
      if last.File? then init + [last.path] else init
  }

  /** `t` is `w` with the new nodes `added` admitted at `depth`. */
  ghost predicate Extends(lim: Limits, w: Wave, t: Wave, added: seq<Node>, depth: nat) {
    && t.frontier == w.frontier + added
    && t.emitted == w.emitted + Paths(added)
    && (forall n :: n in t.depth <==> n in w.depth || n in added)
    && (forall n :: n in w.depth ==> t.depth[n] == w.depth[n])
    && (forall n :: n in added ==> n !in w.depth && t.depth[n] == depth)
    && (forall i, j :: 0 <= i < j < |added| ==> added[i] != added[j])
    && (added != [] ==> depth <= lim.maxDepth && |w.emitted| < lim.maxNodes && |t.emitted| <= lim.maxNodes)
  }

  lemma {:induction false} ScanAdmits(lim: Limits, w: Wave, neighbors: seq<Node>, depth: nat) returns (added: seq<Node>)
    ensures Extends(lim, w, Scan(lim, w, neighbors, depth), added, depth + 1)
    ensures forall n :: n in added ==> n in neighbors
    decreases |neighbors|
  {
    if neighbors == [] {
      added := [];
    } else {
      var n := neighbors[0];
      var t := Scan(lim, w, neighbors, depth);
      if n in w.depth {
        added := ScanAdmits(lim, w, neighbors[1..], depth);
      } else if Admits(lim, depth + 1, |w.emitted|) {
        var next := Admit(w, n, depth + 1);
        var rest := ScanAdmits(lim, next, neighbors[1..], depth);
        added := [n] + rest;
        ExtendsCons(lim, w, n, t, rest, depth + 1);
      } else {
        added := ScanAdmits(lim, w.(truncated := true), neighbors[1..], depth);
      }
    }
  }

  lemma ExtendsCons(lim: Limits, w: Wave, n: Node, t: Wave, rest: seq<Node>, depth: nat)
    requires n !in w.depth && Admits(lim, depth, |w.emitted|)
    requires Extends(lim, Admit(w, n, depth), t, rest, depth)
    ensures Extends(lim, w, t, [n] + rest, depth)
  {
    ExtendsLists(lim, w, n, t, rest, depth);
    ExtendsDepths(lim, w, n, t, rest, depth);
    DistinctCons(n, rest);
  }

  lemma ExtendsLists(lim: Limits, w: Wave, n: Node, t: Wave, rest: seq<Node>, depth: nat)
    requires Admits(lim, depth, |w.emitted|)
    requires Extends(lim, Admit(w, n, depth), t, rest, depth)
    ensures t.frontier == w.frontier + ([n] + rest) && t.emitted == w.emitted + Paths([n] + rest)
    ensures depth <= lim.maxDepth && |w.emitted| < lim.maxNodes && |t.emitted| <= lim.maxNodes
  {
    PathsOfCons(n, rest);
    assert w.frontier + [n] + rest == w.frontier + ([n] + rest);
    if rest == [] { assert Paths(rest) == []; }
  }

  lemma ExtendsDepths(lim: Limits, w: Wave, n: Node, t: Wave, rest: seq<Node>, depth: nat)
    requires n !in w.depth && Extends(lim, Admit(w, n, depth), t, rest, depth)
    ensures n !in rest
    ensures forall x :: x in t.depth <==> x in w.depth || x in [n] + rest
    ensures forall x :: x in w.depth ==> t.depth[x] == w.depth[x]
    ensures forall x :: x in [n] + rest ==> x !in w.depth && x in t.depth && t.depth[x] == depth
  {
    var first := Admit(w, n, depth);
    assert n in first.depth && first.depth[n] == depth;
    assert forall x :: x in [n] + rest <==> x == n || x in rest;
  }

  lemma DistinctCons(n: Node, rest: seq<Node>)
    requires n !in rest && forall i, j :: 0 <= i < j < |rest| ==> rest[i] != rest[j]
    ensures forall i, j :: 0 <= i < j < |[n] + rest| ==> ([n] + rest)[i] != ([n] + rest)[j]
  {
  }

  lemma {:induction false} PathsOfCons(n: Node, nodes: seq<Node>)
    ensures Paths([n] + nodes) == (if n.File? then [n.path] else []) + Paths(nodes)
  {
    var all := [n] + nodes;
    if nodes != [] {
      PathsOfCons(n, nodes[..|nodes| - 1]);
      assert all[..|all| - 1] == [n] + nodes[..|nodes| - 1];
    } else {
      assert all[..0] == [];
    }
  }

  /** A neighbour left out was refused, stays refused, and is what truncation means. */
  ghost predicate Refuses(lim: Limits, w: Wave, neighbors: seq<Node>, depth: nat, t: Wave) {
    && (forall n :: n in neighbors && n !in t.depth ==> t.truncated && !Admits(lim, depth + 1, |t.emitted|))
    && (t.truncated ==> w.truncated || exists n :: n in neighbors && n !in t.depth)
    && (w.truncated ==> t.truncated)
  }

  lemma {:induction false} ScanRefuses(lim: Limits, w: Wave, neighbors: seq<Node>, depth: nat)
    ensures Refuses(lim, w, neighbors, depth, Scan(lim, w, neighbors, depth))
    decreases |neighbors|
  {
    if neighbors != [] {
      var n := neighbors[0];
      var admitted := n !in w.depth && Admits(lim, depth + 1, |w.emitted|);
      var next := if n in w.depth then w else if admitted then Admit(w, n, depth + 1) else w.(truncated := true);
      var t := Scan(lim, next, neighbors[1..], depth);
      ScanRefuses(lim, next, neighbors[1..], depth);
      var added := ScanAdmits(lim, next, neighbors[1..], depth);
      assert forall x :: x in neighbors <==> x == n || x in neighbors[1..];
      assert n in next.depth ==> n in t.depth;
      if n !in w.depth && !admitted {
        assert added == [];
      }
    }
  }

  /** One pop: nothing is forgotten, and either a new node was admitted or the frontier got shorter. */
  lemma PopGrows(g: Adjacency, dir: Direction, root: Node, lim: Limits, w: Wave)
    requires Scoped(g, root, w) && w.frontier != []
    ensures var t := Pop(g, dir, lim, w);
      && Scoped(g, root, t) && w.depth.Keys <= t.depth.Keys
      && (t.depth.Keys == w.depth.Keys ==> |t.frontier| < |w.frontier|)
  {
    var rest := w.(frontier := w.frontier[1..]);
    var d := w.depth[w.frontier[0]];
    var t := Pop(g, dir, lim, w);
    var added := ScanAdmits(lim, rest, Succ(g, dir, w.frontier[0]), d);
    SuccInUniverse(g, dir, w.frontier[0]);
    if added != [] {
      assert added[0] in added;
    }
  }

  lemma PopShrinks(g: Adjacency, dir: Direction, root: Node, lim: Limits, w: Wave)
    requires Scoped(g, root, w) && w.frontier != []
    ensures var t := Pop(g, dir, lim, w);
      && Scoped(g, root, t)
      && (|Universe(g) + {root} - t.depth.Keys| < |Universe(g) + {root} - w.depth.Keys|
          || (t.depth.Keys == w.depth.Keys && |t.frontier| < |w.frontier|))
  {
    var t := Pop(g, dir, lim, w);
    PopGrows(g, dir, root, lim, w);
    if t.depth.Keys != w.depth.Keys {
      var x :| x in t.depth.Keys && x !in w.depth.Keys;
      var u := Universe(g) + {root};
      ProperSubsetSmaller(u - t.depth.Keys, u - w.depth.Keys, x);
    }
  }

  lemma ProperSubsetSmaller<T>(a: set<T>, b: set<T>, x: T)
    requires a <= b && x in b && x !in a
    ensures |a| < |b|
  {
    SubsetNotLarger(a, b - {x});
  }
}
