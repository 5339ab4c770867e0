/** `globalize` with the dictionaries, sets and sorts the source runs, proved against its specification. */
module GlobalizeLoops {
  import opened Collections
  import opened Sorting
  import opened Globalize

  function FullKey(e: Entry): Row {
    [Text(e.path)] + e.row
  }

  /** The sort key of the symbol table: path and line number only. */
  function LineKey(e: Entry): Row {
    [Text(e.path)] + e.row[..if e.row == [] then 0 else 1]
  }

  predicate EntryLe(a: Entry, b: Entry) {
    RowLe(FullKey(a), FullKey(b))
  }

  predicate LineLe(a: Entry, b: Entry) {
    RowLe(LineKey(a), LineKey(b))
  }

  lemma FullKeyInjective(a: Entry, b: Entry)
    requires FullKey(a) == FullKey(b)
    ensures a == b
  {
    assert FullKey(a)[0] == FullKey(b)[0] && FullKey(a)[1..] == a.row && FullKey(b)[1..] == b.row;
  }

  lemma EntryOrder()
    ensures TotalOrder(EntryLe)
  {
    forall a, b ensures (EntryLe(a, b) || EntryLe(b, a)) && (EntryLe(a, b) && EntryLe(b, a) ==> a == b) {
      RowTotal(FullKey(a), FullKey(b));
      if EntryLe(a, b) && EntryLe(b, a) { FullKeyInjective(a, b); }
    }
    forall a, b, c | EntryLe(a, b) && EntryLe(b, c) ensures EntryLe(a, c) {
      RowTransitive(FullKey(a), FullKey(b), FullKey(c));
    }
  }

  lemma LineOrder()
    ensures TotalPreorder(LineLe)
  {
    forall a, b ensures LineLe(a, b) || LineLe(b, a) {
      RowTotal(LineKey(a), LineKey(b));
    }
    forall a, b, c | LineLe(a, b) && LineLe(b, c) ensures LineLe(a, c) {
      RowTransitive(LineKey(a), LineKey(b), LineKey(c));
    }
  }

  lemma EntryLeMeans(a: Entry, b: Entry)
    ensures EntryLe(a, b) <==> (if a.path != b.path then LexLe(a.path, b.path) else RowLe(a.row, b.row))
    ensures EntryLe(a, b) ==> LineLe(a, b)
  {
    var x, y, u, v := FullKey(a), FullKey(b), LineKey(a), LineKey(b);
    assert x[1..] == a.row && y[1..] == b.row;
    assert u[1..] == a.row[..if a.row == [] then 0 else 1] && v[1..] == b.row[..if b.row == [] then 0 else 1];
    if EntryLe(a, b) && a.path == b.path && a.row != [] && b.row != [] {
      FieldOrder(a.row[0], b.row[0], a.row[0]);
      assert u[1..][1..] == [] && v[1..][1..] == [];
    }
  }

  // -- The merged table is sorted --------------------------------------------------------------

  ghost predicate SortedPaths(paths: seq<string>) {
    forall i, j :: 0 <= i < j < |paths| ==> LexLe(paths[i], paths[j]) && paths[i] != paths[j]
  }

  lemma {:induction false} MergedSorted(table: Table, files: PerFile, paths: seq<string>)
    requires WellFormed(table, files) && (forall p :: p in paths ==> p in files) && SortedPaths(paths)
    ensures SortedBy(EntryLe, Merged(table, files, paths))
    ensures NoRepeats(Merged(table, files, paths))
  {
    if paths != [] {
      var init, last := paths[..|paths| - 1], paths[|paths| - 1];
      MergedSorted(table, files, init);
      MergedFacts(table, files, init);
      BlockFacts(table, files[last]);
      var front, tail := Merged(table, files, init), Tagged(last, Block(table, files[last]));
      var m := front + tail;
      forall i, j | 0 <= i < j < |m| ensures EntryLe(m[i], m[j]) && m[i] != m[j] {
        if j < |front| {
          assert m[i] == front[i] && m[j] == front[j];
        } else if i < |front| {
          assert m[i] in front;
          EarlierPath(paths, m[i].path);
          EntryLeMeans(m[i], m[j]);
        } else {
          TaggedSorted(table, last, files[last], i - |front|, j - |front|);
        }
      }
    }
  }

  lemma EarlierPath(paths: seq<string>, path: string)
    requires paths != [] && SortedPaths(paths) && path in paths[..|paths| - 1]
    ensures LexLe(path, paths[|paths| - 1]) && path != paths[|paths| - 1]
  {
    var k :| 0 <= k < |paths| - 1 && paths[k] == path;
  }

  lemma TaggedSorted(table: Table, path: string, rows: seq<Row>, i: nat, j: nat)
    requires AllShaped(table, rows) && i < j < |Block(table, rows)|
    ensures var tail := Tagged(path, Block(table, rows)); EntryLe(tail[i], tail[j]) && tail[i] != tail[j]
  {
    BlockFacts(table, rows);
    var b := Block(table, rows);
    assert b[i] in b && b[j] in b;
    assert Key(table, b[i]) != Key(table, b[j]);
    EntryLeMeans(Entry(path, b[i]), Entry(path, b[j]));
  }

  // -- Symbols: a dictionary keyed by (path, kind, name), then a stable sort ----------------------

  function KeySet(table: Table, rows: seq<Row>): set<Row>
    requires AllShaped(table, rows)
  {
    set row | row in rows :: Key(table, row)
  }

  lemma KeySetCons(table: Table, a: seq<Row>)
    requires a != [] && AllShaped(table, a)
    ensures AllShaped(table, a[1..]) && KeySet(table, a) == {Key(table, a[0])} + KeySet(table, a[1..])
  {
    assert a == [a[0]] + a[1..];
  }

  lemma {:induction false} FirstsConcat(table: Table, a: seq<Row>, b: seq<Row>, seen: set<Row>)
    requires AllShaped(table, a) && AllShaped(table, b) && AllShaped(table, a + b)
    ensures Firsts(table, a + b, seen) == Firsts(table, a, seen) + Firsts(table, b, seen + KeySet(table, a))
  {
    if a == [] {
      assert a + b == b && seen + KeySet(table, a) == seen;
    } else {
      var whole := a + b;
      assert whole[0] == a[0] && whole[1..] == a[1..] + b;
      var next := seen + {Key(table, a[0])};
      KeySetCons(table, a);
      FirstsCons(table, whole, seen);
      FirstsCons(table, a, seen);
      FirstsConcat(table, a[1..], b, next);
      assert next + KeySet(table, a[1..]) == seen + KeySet(table, a);
      Associate(if Key(table, a[0]) in seen then [] else [a[0]], Firsts(table, a[1..], next),
                Firsts(table, b, seen + KeySet(table, a)));
    }
  }

  lemma Associate(x: seq<Row>, y: seq<Row>, z: seq<Row>)
    ensures x + (y + z) == x + y + z
  {
  }

  lemma FirstsCons(table: Table, rows: seq<Row>, seen: set<Row>)
    requires rows != [] && AllShaped(table, rows)
    ensures AllShaped(table, rows[1..])
    ensures Firsts(table, rows, seen) ==
      (if Key(table, rows[0]) in seen then [] else [rows[0]]) + Firsts(table, rows[1..], seen + {Key(table, rows[0])})
  {
    var k := Key(table, rows[0]);
    assert forall row :: row in rows[1..] ==> row in rows;
    assert k in seen ==> seen + {k} == seen;
  }

  /** One file's sorted rows through `setdefault`. */
  method KeepFirsts(path: string, rows: seq<Row>) returns (kept: seq<Entry>)
    requires AllShaped(Syms, rows)
    ensures kept == Tagged(path, Firsts(Syms, rows, {}))
  {
    kept := [];
    var seen: set<Row> := {};
    for k := 0 to |rows|
      invariant AllShaped(Syms, rows[..k]) && seen == KeySet(Syms, rows[..k])
      invariant kept == Tagged(path, Firsts(Syms, rows[..k], {}))
    {
      assert rows[..k + 1] == rows[..k] + [rows[k]];
      assert rows[k] in rows;
      assert forall row :: row in rows[..k + 1] ==> row in rows;
      FirstsConcat(Syms, rows[..k], [rows[k]], {});
      assert {} + KeySet(Syms, rows[..k]) == seen;
      var key := Key(Syms, rows[k]);
      if key !in seen {
        kept := kept + [Entry(path, rows[k])];
      }
      seen := seen + {key};
    }
    assert rows[..|rows|] == rows;
  }

  method MergeSymbols(files: PerFile, paths: seq<string>) returns (items: seq<Entry>)
    requires WellFormed(Syms, files) && forall p :: p in paths ==> p in files
    ensures items == Merged(Syms, files, paths)
  {
    items := [];
    for k := 0 to |paths|
      invariant items == Merged(Syms, files, paths[..k])
    {
      assert paths[k] in paths;
      assert paths[..k + 1][..k] == paths[..k];
      SortKeepsShape(Syms, files[paths[k]]);
      var kept := KeepFirsts(paths[k], SortBy(RowLe, files[paths[k]]));
      items := items + kept;
    }
    assert paths[..|paths|] == paths;
  }

  method GlobalizeSymbols(files: PerFile) returns (records: seq<Record>)
    requires WellFormed(Syms, files)
    ensures records == Globalize.Globalize(Syms, files)
  {
    var paths := SortStrings(files.Keys);
    var items := MergeSymbols(files, paths);
    MergedSorted(Syms, files, paths);
    MergedFacts(Syms, files, paths);
    StableSortKeeps(items);
    items := SortBy(LineLe, items);
    records := Numbered(Syms, items);
  }

  /** Sorting by (path, line) moves nothing that is already sorted by the whole row. */
  lemma StableSortKeeps(items: seq<Entry>)
    requires SortedBy(EntryLe, items)
    ensures SortBy(LineLe, items) == items
  {
    LineOrder();
    forall i, j | 0 <= i < j < |items| ensures LineLe(items[i], items[j]) {
      EntryLeMeans(items[i], items[j]);
    }
    SortOfSorted(LineLe, items);
  }

  // -- The other tables: a set of whole rows, sorted globally -------------------------------------

  /** Rows of all files, repetitions dropped, in arrival order. */
  method Collect(table: Table, files: PerFile, paths: seq<string>) returns (keys: seq<Entry>)
    requires forall p :: p in paths ==> p in files
    ensures forall e :: e in keys <==> e.path in paths && e.row in files[e.path]
    ensures forall i, j :: 0 <= i < j < |keys| ==> keys[i] != keys[j]
  {
    keys := [];
    for k := 0 to |paths|
      invariant forall e :: e in keys <==> e.path in paths[..k] && e.path in paths && e.row in files[e.path]
      invariant forall i, j :: 0 <= i < j < |keys| ==> keys[i] != keys[j]
    {
      var path := paths[k];
      assert path in paths;
      assert paths[..k + 1] == paths[..k] + [path];
      var rows := files[path];
      ghost var before := keys;
      for m := 0 to |rows|
        invariant forall e :: e in keys <==> e in before || (e.path == path && e.row in rows[..m])
        invariant forall i, j :: 0 <= i < j < |keys| ==> keys[i] != keys[j]
      {
        assert rows[..m + 1] == rows[..m] + [rows[m]];
        var e := Entry(path, rows[m]);
        if e !in keys {
          keys := keys + [e];
        }
      }
      assert rows[..|rows|] == rows;
    }
    assert paths[..|paths|] == paths;
  }

  lemma {:induction false} FirstsMembers(table: Table, rows: seq<Row>, seen: set<Row>, row: Row)
    requires !table.Syms? && AllShaped(table, rows) && row !in seen
    ensures row in Firsts(table, rows, seen) <==> row in rows
  {
    if rows != [] && row != rows[0] {
      assert Key(table, rows[0]) == rows[0];
      FirstsMembers(table, rows[1..], if rows[0] in seen then seen else seen + {rows[0]}, row);
    }
  }

  lemma {:induction false} MergedMembers(table: Table, files: PerFile, paths: seq<string>, e: Entry)
    requires !table.Syms? && WellFormed(table, files) && forall p :: p in paths ==> p in files
    ensures e in Merged(table, files, paths) <==> e.path in paths && e.row in files[e.path]
  {
    if paths != [] {
      var init, last := paths[..|paths| - 1], paths[|paths| - 1];
      assert paths == init + [last];
      MergedMembers(table, files, init, e);
      BlockMembers(table, files[last], e.row);
      var tail := Tagged(last, Block(table, files[last]));
      if e.path == last && e.row in Block(table, files[last]) {
        var i :| 0 <= i < |Block(table, files[last])| && Block(table, files[last])[i] == e.row;
        assert tail[i] == e;
      }
    }
  }

  lemma BlockMembers(table: Table, rows: seq<Row>, row: Row)
    requires !table.Syms? && AllShaped(table, rows)
    ensures row in Block(table, rows) <==> row in rows
  {
    SortKeepsShape(table, rows);
    FirstsMembers(table, SortBy(RowLe, rows), {}, row);
    SortByContent(RowLe, rows);
    SameMembers(SortBy(RowLe, rows), rows);
  }

  method GlobalizeRows(table: Table, files: PerFile) returns (records: seq<Record>)
    requires !table.Syms? && WellFormed(table, files)
    ensures records == Globalize.Globalize(table, files)
  {
    var paths := SortStrings(files.Keys);
    var keys := Collect(table, files, paths);
    ghost var merged := Merged(table, files, paths);
    SortedKeysAreMerged(table, files, paths, keys);
    MergedFacts(table, files, paths);
    records := Numbered(table, SortBy(EntryLe, keys));
  }

  /** Whatever order the rows were collected in, sorting the set of them gives the merged table. */
  lemma SortedKeysAreMerged(table: Table, files: PerFile, paths: seq<string>, keys: seq<Entry>)
    requires !table.Syms? && WellFormed(table, files) && (forall p :: p in paths ==> p in files) && SortedPaths(paths)
    requires forall e :: e in keys <==> e.path in paths && e.row in files[e.path]
    requires forall i, j :: 0 <= i < j < |keys| ==> keys[i] != keys[j]
    ensures SortBy(EntryLe, keys) == Merged(table, files, paths)
  {
    var merged := Merged(table, files, paths);
    EntryOrder();
    MergedSorted(table, files, paths);
    forall e ensures e in merged <==> e in keys {
      MergedMembers(table, files, paths, e);
    }
    var all := set e | e in keys;
    NoRepeatsMultiset(keys, all);
    NoRepeatsMultiset(merged, all);
    SortByContent(EntryLe, keys);
    SortBySorted(EntryLe, keys);
    SortedUnique(EntryLe, SortBy(EntryLe, keys), merged);
  }
}
