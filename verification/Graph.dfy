/** The file/symbol graph of a snapshot and the bounded breadth-first walk over it. */
module Graph {
  import opened Sorting

  datatype Row = Row(src: string, rel: string, dst: string)

  datatype Node = File(path: string) | Sym(name: string)

  datatype Direction = Forward | Reverse

  /** Sorted, deduplicated adjacency. */
  datatype Adjacency = Adjacency(depends: map<string, seq<string>>, defines: map<string, seq<string>>,
                                 rdepends: map<string, seq<string>>, definesOf: map<string, seq<string>>)

  const DEPENDS_ON := "depends-on"
  const DEFINES := "defines"

  // -- From rows to adjacency ------------------------------------------------------------------

  function KeyOf(r: Row, bySrc: bool): string {
    if bySrc then r.src else r.dst
  }

  function ValueOf(r: Row, bySrc: bool): string {
    if bySrc then r.dst else r.src
  }

  function KeysOf(rows: set<Row>, rel: string, bySrc: bool): set<string> {
    set r | r in rows && r.rel == rel :: KeyOf(r, bySrc)
  }

  function ValuesAt(rows: set<Row>, rel: string, bySrc: bool, k: string): set<string> {
    set r | r in rows && r.rel == rel && KeyOf(r, bySrc) == k :: ValueOf(r, bySrc)
  }

  function Neighbors(rows: set<Row>, rel: string, bySrc: bool): map<string, set<string>> {
    map k | k in KeysOf(rows, rel, bySrc) :: ValuesAt(rows, rel, bySrc, k)
  }

  ghost function SortedValues(m: map<string, set<string>>): map<string, seq<string>> {
    map k | k in m :: SortedSet(m[k])
  }

  ghost function GraphOf(rows: set<Row>): Adjacency {
    Adjacency(SortedValues(Neighbors(rows, DEPENDS_ON, true)), SortedValues(Neighbors(rows, DEFINES, false)),
              SortedValues(Neighbors(rows, DEPENDS_ON, false)), SortedValues(Neighbors(rows, DEFINES, true)))
  }

  function AddNeighbor(m: map<string, set<string>>, k: string, v: string): map<string, set<string>> {
    m[k := (if k in m then m[k] else {}) + {v}]
  }

  lemma ValuesAtAdd(rows: set<Row>, r: Row, rel: string, bySrc: bool, k: string)
    ensures ValuesAt(rows + {r}, rel, bySrc, k) == ValuesAt(rows, rel, bySrc, k) +
      (if r.rel == rel && KeyOf(r, bySrc) == k then {ValueOf(r, bySrc)} else {})
  {
  }

  lemma ValuesAtNoKey(rows: set<Row>, rel: string, bySrc: bool, k: string)
    requires k !in KeysOf(rows, rel, bySrc)
    ensures ValuesAt(rows, rel, bySrc, k) == {}
  {
  }

  lemma KeysAdd(rows: set<Row>, r: Row, rel: string, bySrc: bool)
    ensures KeysOf(rows + {r}, rel, bySrc)
         == KeysOf(rows, rel, bySrc) + (if r.rel == rel then {KeyOf(r, bySrc)} else {})
  {
  }

  lemma AddRow(rows: set<Row>, r: Row, rel: string, bySrc: bool)
    ensures Neighbors(rows + {r}, rel, bySrc) ==
      if r.rel == rel then AddNeighbor(Neighbors(rows, rel, bySrc), KeyOf(r, bySrc), ValueOf(r, bySrc))
      else Neighbors(rows, rel, bySrc)
  {
    var k := KeyOf(r, bySrc);
    var before, after := Neighbors(rows, rel, bySrc), Neighbors(rows + {r}, rel, bySrc);
    KeysAdd(rows, r, rel, bySrc);
    var added := if r.rel == rel then AddNeighbor(before, k, ValueOf(r, bySrc)) else before;
    assert after.Keys == added.Keys;
    forall j | j in after ensures after[j] == added[j] {
      ValuesAtAdd(rows, r, rel, bySrc, j);
      if j !in before {
        ValuesAtNoKey(rows, rel, bySrc, j);
      }
    }
  }

  method SortEach(m: map<string, set<string>>) returns (r: map<string, seq<string>>)
    ensures r == SortedValues(m)
  {
    r := map[];
    var todo := m.Keys;
    while todo != {}
      invariant todo <= m.Keys && r.Keys == m.Keys - todo
      invariant forall k :: k in r ==> r[k] == SortedSet(m[k])
    {
      var k :| k in todo;
      var values := SortStrings(m[k]);
      r := r[k := values];
      todo := todo - {k};
    }
  }

  function RowSet(rows: seq<Row>): set<Row> {
    set r | r in rows
  }

  /** Only `depends-on` and `defines` rows shape the graph; order and repetition of rows do not. */
  method BuildGraph(rows: seq<Row>) returns (g: Adjacency)
    ensures g == GraphOf(RowSet(rows))
  {
    var depends, defines, rdepends, definesOf := map[], map[], map[], map[];
    ghost var seen: set<Row> := {};
    for k := 0 to |rows|
      invariant seen == RowSet(rows[..k])
      invariant depends == Neighbors(seen, DEPENDS_ON, true) && rdepends == Neighbors(seen, DEPENDS_ON, false)
      invariant defines == Neighbors(seen, DEFINES, false) && definesOf == Neighbors(seen, DEFINES, true)
    {
      var r := rows[k];
      assert rows[..k + 1] == rows[..k] + [r];
      AddRow(seen, r, DEPENDS_ON, true);
      AddRow(seen, r, DEPENDS_ON, false);
      AddRow(seen, r, DEFINES, true);
      AddRow(seen, r, DEFINES, false);
      if r.rel == DEPENDS_ON {
        depends := AddNeighbor(depends, r.src, r.dst);
        rdepends := AddNeighbor(rdepends, r.dst, r.src);
      } else if r.rel == DEFINES {
        defines := AddNeighbor(defines, r.dst, r.src);
        definesOf := AddNeighbor(definesOf, r.src, r.dst);
      }
      seen := seen + {r};
    }
    assert rows[..|rows|] == rows;
    var a := SortEach(depends);
    var b := SortEach(defines);
    var c := SortEach(rdepends);
    var d := SortEach(definesOf);
    g := Adjacency(a, b, c, d);
  }

  // -- Neighbours and reachability -------------------------------------------------------------

  function Get(m: map<string, seq<string>>, k: string): seq<string> {
    if k in m then m[k] else []
  }

  function Syms(names: seq<string>): seq<Node> {
    seq(|names|, i requires 0 <= i < |names| => Sym(names[i]))
  }

  function Files(paths: seq<string>): seq<Node> {
    seq(|paths|, i requires 0 <= i < |paths| => File(paths[i]))
  }

  function Succ(g: Adjacency, dir: Direction, n: Node): seq<Node> {
    match (dir, n)
    case (Forward, File(p)) => Syms(Get(g.depends, p))
    case (Forward, Sym(s)) => Files(Get(g.defines, s))
    case (Reverse, Sym(s)) => Files(Get(g.rdepends, s))
    case (Reverse, File(p)) => Syms(Get(g.definesOf, p))
  }

  /** A file needs the symbols it depends on, and a symbol needs the files defining it. */
  predicate Needs(rows: set<Row>, x: Node, y: Node) {
    match (x, y)
    case (File(p), Sym(s)) => Row(p, DEPENDS_ON, s) in rows
    case (Sym(s), File(p)) => Row(p, DEFINES, s) in rows
    case _ => false
  }

  lemma NeighborIsRow(rows: set<Row>, rel: string, bySrc: bool, k: string, v: string)
    ensures v in Get(SortedValues(Neighbors(rows, rel, bySrc)), k) <==>
      (if bySrc then Row(k, rel, v) else Row(v, rel, k)) in rows
  {
    var r := if bySrc then Row(k, rel, v) else Row(v, rel, k);
    if r in rows {
      assert KeyOf(r, bySrc) == k && ValueOf(r, bySrc) == v;
      assert k in KeysOf(rows, rel, bySrc) && v in ValuesAt(rows, rel, bySrc, k);
    }
    if v in ValuesAt(rows, rel, bySrc, k) {
      var q :| q in rows && q.rel == rel && KeyOf(q, bySrc) == k && ValueOf(q, bySrc) == v;
      assert q == r;
    }
  }

  lemma FileNeedsSym(rows: set<Row>, p: string, s: string)
    ensures Sym(s) in Succ(GraphOf(rows), Forward, File(p)) <==> Row(p, DEPENDS_ON, s) in rows
    ensures File(p) in Succ(GraphOf(rows), Reverse, Sym(s)) <==> Row(p, DEPENDS_ON, s) in rows
  {
    NeighborIsRow(rows, DEPENDS_ON, true, p, s);
    NeighborIsRow(rows, DEPENDS_ON, false, s, p);
    SymIn(Get(GraphOf(rows).depends, p), s);
    FileIn(Get(GraphOf(rows).rdepends, s), p);
  }

  lemma SymNeedsFile(rows: set<Row>, s: string, p: string)
    ensures File(p) in Succ(GraphOf(rows), Forward, Sym(s)) <==> Row(p, DEFINES, s) in rows
    ensures Sym(s) in Succ(GraphOf(rows), Reverse, File(p)) <==> Row(p, DEFINES, s) in rows
  {
    NeighborIsRow(rows, DEFINES, true, p, s);
    NeighborIsRow(rows, DEFINES, false, s, p);
    SymIn(Get(GraphOf(rows).definesOf, p), s);
    FileIn(Get(GraphOf(rows).defines, s), p);
  }

  /** The adjacency walked forward is `Needs`; walked backward it is its converse. */
  lemma SuccIsNeeds(rows: set<Row>, x: Node, y: Node)
    ensures y in Succ(GraphOf(rows), Forward, x) <==> Needs(rows, x, y)
    ensures y in Succ(GraphOf(rows), Reverse, x) <==> Needs(rows, y, x)
  {
    match (x, y)
    case (File(p), Sym(s)) =>
      FileNeedsSym(rows, p, s);
      SymNeedsFile(rows, s, p);
    case (Sym(s), File(p)) =>
      FileNeedsSym(rows, p, s);
      SymNeedsFile(rows, s, p);
    case (File(_), File(_)) =>
    case (Sym(_), Sym(_)) =>
  }

  lemma SymIn(names: seq<string>, s: string)
    ensures Sym(s) in Syms(names) <==> s in names
  {
    if s in names {
      var i :| 0 <= i < |names| && names[i] == s;
      assert Syms(names)[i] == Sym(s);
    }
  }

  lemma FileIn(paths: seq<string>, p: string)
    ensures File(p) in Files(paths) <==> p in paths
  {
    if p in paths {
      var i :| 0 <= i < |paths| && paths[i] == p;
      assert Files(paths)[i] == File(p);
    }
  }

  ghost function NodesOf(m: map<string, seq<string>>, files: bool): set<Node> {
    set k, i | k in m && 0 <= i < |m[k]| :: if files then File(m[k][i]) else Sym(m[k][i])
  }

  /** Every node a walk can reach from anywhere. */
  ghost function Universe(g: Adjacency): set<Node> {
    NodesOf(g.depends, false) + NodesOf(g.defines, true) + NodesOf(g.rdepends, true) + NodesOf(g.definesOf, false)
  }

  lemma SuccInUniverse(g: Adjacency, dir: Direction, n: Node)
    ensures forall y :: y in Succ(g, dir, n) ==> y in Universe(g)
  {
  }

  ghost function Within(g: Adjacency, dir: Direction, root: Node, k: nat): set<Node> {
    if k == 0 then {root} else
      var near := Within(g, dir, root, k - 1);
      near + (set x, y | x in near && y in Succ(g, dir, x) :: y)
  }

  ghost predicate Reachable(g: Adjacency, dir: Direction, root: Node, n: Node) {
    exists k: nat :: n in Within(g, dir, root, k)
  }

  lemma {:induction false} WithinGrows(g: Adjacency, dir: Direction, root: Node, j: nat, k: nat)
    requires j <= k
    ensures Within(g, dir, root, j) <= Within(g, dir, root, k)
    decreases k
  {
    if j < k {
      WithinGrows(g, dir, root, j, k - 1);
    }
  }
}
