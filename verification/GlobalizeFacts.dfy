/** What the merged tables contain, said of rows and records alone. */
module GlobalizeFacts {
  import opened Sorting
  import opened Globalize
  import opened GlobalizeLoops

  // -- Order ------------------------------------------------------------------------------------------

  /** Tuples are ordered by the first field in which they differ; a tuple that ends first comes first. */
  lemma {:induction false} FirstFieldDecides(a: Row, b: Row)
    ensures RowLe(a, b) <==> a <= b || LessFirst(FieldLe, a, b)
  {
    if a != [] && b != [] {
      if a[0] == b[0] {
        FirstFieldDecides(a[1..], b[1..]);
        LessFirstTail(FieldLe, a, b);
      } else {
        LessFirstHead(FieldLe, a, b);
      }
    }
  }

  // -- Blocks -----------------------------------------------------------------------------------------

  /** Every key has its first row kept. */
  lemma {:induction false} FirstsCover(table: Table, rows: seq<Row>, seen: set<Row>, row: Row) returns (first: Row)
    requires AllShaped(table, rows) && SortedBy(RowLe, rows) && row in rows && Key(table, row) !in seen
    ensures first in Firsts(table, rows, seen) && first in rows && RowLe(first, row)
    ensures Key(table, first) == Key(table, row)
  {
    FirstsCons(table, rows, seen);
    var k := Key(table, rows[0]);
    RowTotal(row, row);
    if Key(table, row) == k {
      first := rows[0];
      var i :| 0 <= i < |rows| && rows[i] == row;
    } else {
      assert row in rows[1..];
      first := FirstsCover(table, rows[1..], seen + {k}, row);
    }
  }

  /** The least row of a file with its key. */
  ghost predicate Least(table: Table, rows: seq<Row>, row: Row)
    requires AllShaped(table, rows)
  {
    row in rows && forall other :: other in rows && Key(table, other) == Key(table, row) ==> RowLe(row, other)
  }

  /** A block holds exactly the least row of every key. */
  lemma BlockIsLeast(table: Table, rows: seq<Row>, row: Row)
    requires AllShaped(table, rows)
    ensures row in Block(table, rows) <==> Least(table, rows, row)
  {
    BlockFacts(table, rows);
    SortedFacts(table, rows);
    var sorted, b := SortBy(RowLe, rows), Block(table, rows);
    if row in b {
      forall other | other in rows && Key(table, other) == Key(table, row) ensures RowLe(row, other) {
        var first := FirstsCover(table, sorted, {}, other);
        SameKeySameRow(table, b, first, row);
      }
    }
    if Least(table, rows, row) {
      var first := FirstsCover(table, sorted, {}, row);
      RowTotal(first, row);
    }
  }

  lemma SortedFacts(table: Table, rows: seq<Row>)
    requires AllShaped(table, rows)
    ensures AllShaped(table, SortBy(RowLe, rows)) && SortedBy(RowLe, SortBy(RowLe, rows))
    ensures forall row :: row in SortBy(RowLe, rows) <==> row in rows
  {
    RowOrder();
    SortKeepsShape(table, rows);
    SortByContent(RowLe, rows);
    SameMembers(SortBy(RowLe, rows), rows);
    SortBySorted(RowLe, rows);
  }

  lemma SameKeySameRow(table: Table, b: seq<Row>, x: Row, y: Row)
    requires AllShaped(table, b) && forall i, j :: 0 <= i < j < |b| ==> Key(table, b[i]) != Key(table, b[j])
    requires x in b && y in b && Key(table, x) == Key(table, y)
    ensures x == y
  {
    var i :| 0 <= i < |b| && b[i] == x;
    var j :| 0 <= j < |b| && b[j] == y;
  }

  // -- The merged table ---------------------------------------------------------------------------------

  lemma {:induction false} MergedExact(table: Table, files: PerFile, paths: seq<string>, e: Entry)
    requires WellFormed(table, files) && forall p :: p in paths ==> p in files
    ensures e in Merged(table, files, paths) <==> e.path in paths && Least(table, files[e.path], e.row)
  {
    if paths != [] {
      var init, last := paths[..|paths| - 1], paths[|paths| - 1];
      assert paths == init + [last];
      MergedExact(table, files, init, e);
      BlockIsLeast(table, files[last], e.row);
      TaggedMembers(last, Block(table, files[last]), e);
    }
  }

  lemma TaggedMembers(path: string, rows: seq<Row>, e: Entry)
    ensures e in Tagged(path, rows) <==> e.path == path && e.row in rows
  {
    if e.path == path && e.row in rows {
      var i :| 0 <= i < |rows| && rows[i] == e.row;
      assert Tagged(path, rows)[i] == e;
    }
  }

  /** The table is the entries, in order, without their line numbers. */
  ghost predicate Printed(table: Table, entries: seq<Entry>, records: seq<Record>) {
    && |records| == |entries|
    && forall i :: 0 <= i < |entries| ==>
         && entries[i].row != [] && records[i].path == entries[i].path && records[i].seqno == i
         && records[i].content == if table.Syms? || table.Headings? then entries[i].row[1..] else entries[i].row
  }

  /** Entries in path order, rows of one path in tuple order, none twice. */
  ghost predicate InOrder(entries: seq<Entry>) {
    forall i, j :: 0 <= i < j < |entries| ==>
      && entries[i] != entries[j] && LexLe(entries[i].path, entries[j].path)
      && (entries[i].path == entries[j].path ==> RowLe(entries[i].row, entries[j].row))
  }

  lemma TableIsPrinted(table: Table, files: PerFile) returns (entries: seq<Entry>)
    requires WellFormed(table, files)
    ensures Printed(table, entries, Globalize.Globalize(table, files)) && InOrder(entries)
    ensures forall e :: e in entries <==> e.path in files && Least(table, files[e.path], e.row)
  {
    var paths := SortedSet(files.Keys);
    MergedFacts(table, files, paths);
    MergedSorted(table, files, paths);
    entries := Merged(table, files, paths);
    forall e ensures e in entries <==> e.path in files && Least(table, files[e.path], e.row) {
      MergedExact(table, files, paths, e);
    }
    forall i, j | 0 <= i < j < |entries|
      ensures LexLe(entries[i].path, entries[j].path)
      ensures entries[i].path == entries[j].path ==> RowLe(entries[i].row, entries[j].row)
    {
      LexTotalOrder();
      EntryLeMeans(entries[i], entries[j]);
    }
    forall i | 0 <= i < |entries| ensures Shaped(table, entries[i].row) {
      assert entries[i] in entries;
    }
  }

  // -- Symbols --------------------------------------------------------------------------------------------

  /** A row declares a name as a kind. */
  predicate Declares(row: Row, kind: Field, name: Field) {
    |row| == 4 && row[1] == kind && row[2] == name
  }

  /** Record `i` says that `path` declares `name` as `kind`. */
  predicate Says(records: seq<Record>, i: nat, path: string, kind: Field, name: Field) {
    i < |records| && records[i].path == path && |records[i].content| == 3
    && records[i].content[0] == kind && records[i].content[1] == name
  }

  /** A declaration of a file has exactly one record, and every record is the least row of a declaration: its line
      orders it among the others of its file, and its digest is the one recorded. */
  lemma SymbolsExact(files: PerFile, path: string, kind: Field, name: Field) returns (least: seq<Row>)
    requires WellFormed(Syms, files)
    ensures var t := Globalize.Globalize(Syms, files);
      && ((path in files && exists row :: row in files[path] && Declares(row, kind, name)) <==>
            exists i :: Says(t, i, path, kind, name))
      && (forall i, j :: Says(t, i, path, kind, name) && Says(t, j, path, kind, name) ==> i == j)
      && |least| == |t|
      && forall i :: 0 <= i < |t| ==> LeastOfItsName(files, t[i], least[i])
    ensures var t := Globalize.Globalize(Syms, files);
      && (forall i :: 0 <= i < |t| ==> t[i].seqno == i)
      && forall i, j :: 0 <= i < j < |t| ==>
           LexLe(t[i].path, t[j].path) && (t[i].path == t[j].path ==> RowLe(least[i], least[j]))
  {
    var t := Globalize.Globalize(Syms, files);
    var entries := TableIsPrinted(Syms, files);
    least := seq(|t|, i requires 0 <= i < |t| => entries[i].row);
    forall i | 0 <= i < |t| ensures LeastOfItsName(files, t[i], least[i]) {
      assert entries[i] in entries;
      LeastByName(files[entries[i].path], entries[i].row);
    }
    if path in files && exists row :: row in files[path] && Declares(row, kind, name) {
      var row :| row in files[path] && Declares(row, kind, name);
      var i := RecordOf(files, entries, t, path, row);
    }
    forall i, j | Says(t, i, path, kind, name) && Says(t, j, path, kind, name) ensures i == j {
      OneRecord(files, entries, t, i, j);
    }
  }

  /** The record shows the least row of its file with its kind and name. */
  ghost predicate LeastOfItsName(files: PerFile, r: Record, row: Row) {
    && |row| == 4 && r.content == row[1..] && r.path in files && row in files[r.path]
    && forall other :: other in files[r.path] && Declares(other, row[1], row[2]) ==> RowLe(row, other)
  }

  lemma LeastByName(rows: seq<Row>, row: Row)
    requires AllShaped(Syms, rows) && Least(Syms, rows, row)
    ensures |row| == 4 && row in rows && forall other :: other in rows && Declares(other, row[1], row[2]) ==>
      RowLe(row, other)
  {
    forall other | other in rows && Declares(other, row[1], row[2]) ensures RowLe(row, other) {
      assert other[1..3] == row[1..3];
    }
  }

  lemma RecordOf(files: PerFile, entries: seq<Entry>, t: seq<Record>, path: string, row: Row) returns (i: nat)
    requires WellFormed(Syms, files) && Printed(Syms, entries, t) && path in files && row in files[path]
    requires forall e :: e in entries <==> e.path in files && Least(Syms, files[e.path], e.row)
    ensures |row| == 4 && Says(t, i, path, row[1], row[2])
  {
    SortedFacts(Syms, files[path]);
    var first := FirstsCover(Syms, SortBy(RowLe, files[path]), {}, row);
    BlockIsLeast(Syms, files[path], first);
    assert Entry(path, first) in entries;
    i :| 0 <= i < |entries| && entries[i] == Entry(path, first);
    assert first[1..3][0] == row[1..3][0] && first[1..3][1] == row[1..3][1];
  }

  lemma OneRecord(files: PerFile, entries: seq<Entry>, t: seq<Record>, i: nat, j: nat)
    requires WellFormed(Syms, files) && Printed(Syms, entries, t) && InOrder(entries)
    requires forall e :: e in entries <==> e.path in files && Least(Syms, files[e.path], e.row)
    requires i < |t| && j < |t| && t[i].path == t[j].path && |t[i].content| == 3 && |t[j].content| == 3
    requires t[i].content[0] == t[j].content[0] && t[i].content[1] == t[j].content[1]
    ensures i == j
  {
    var x, y := entries[i].row, entries[j].row;
    assert entries[i] in entries && entries[j] in entries;
    assert x[1..3] == y[1..3];
    assert RowLe(x, y) && RowLe(y, x);
    RowTotal(x, y);
  }

  // -- Headings, relations, pressure ids ------------------------------------------------------------------

  /** Every row of a file, and no other, has exactly one record; records are in path order, those of one path in the
      order of their rows, and numbered from 0. */
  lemma RowsExact(table: Table, files: PerFile) returns (entries: seq<Entry>)
    requires !table.Syms? && WellFormed(table, files)
    ensures Printed(table, entries, Globalize.Globalize(table, files)) && InOrder(entries)
    ensures forall e :: e in entries <==> e.path in files && e.row in files[e.path]
  {
    entries := TableIsPrinted(table, files);
    forall e ensures e in entries <==> e.path in files && e.row in files[e.path] {
      if e.path in files && e.row in files[e.path] {
        WholeRowLeast(table, files[e.path], e.row);
      }
    }
  }

  lemma WholeRowLeast(table: Table, rows: seq<Row>, row: Row)
    requires !table.Syms? && AllShaped(table, rows) && row in rows
    ensures Least(table, rows, row)
  {
    RowTotal(row, row);
  }
}
