/** The deterministic merge of per-file extraction rows, and its reuse across increments.

  Rows are Python tuples: sequences of numbers and texts compared lexicographically.
 */
module Globalize {
  import opened Sorting

  datatype Field = Num(n: int) | Text(t: string)

  type Row = seq<Field>

  /** The four rich tables.  Symbols and headings start with a line number that is not recorded. */
  datatype Table = Syms | Headings | Rels | Press

  datatype Record = Record(path: string, content: Row, seqno: nat)

  predicate HasLine(table: Table) {
    table.Syms? || table.Headings?
  }

  /** (line, kind, name, digest), (line, level, title, digest), (relation, target), (pressure id). */
  predicate Shaped(table: Table, row: Row) {
    match table
    case Syms => |row| == 4 && row[0].Num?
    case Headings => |row| == 4 && row[0].Num?
    case Rels => |row| == 2
    case Press => |row| == 1
  }

  /** Two rows of one file with the same key are one fact: (kind, name) for symbols, the whole row otherwise. */
  function Key(table: Table, row: Row): Row
    requires Shaped(table, row)
  {
    if table.Syms? then row[1..3] else row
  }

  function Content(table: Table, row: Row): Row
    requires Shaped(table, row)
  {
    if HasLine(table) then row[1..] else row
  }

  // -- Lexicographic order of tuples -----------------------------------------------------------

  predicate FieldLe(a: Field, b: Field) {
    match (a, b)
    case (Num(x), Num(y)) => x <= y
    case (Text(x), Text(y)) => LexLe(x, y)
    case (Num(_), Text(_)) => true
    case (Text(_), Num(_)) => false
  }

  predicate RowLe(a: Row, b: Row) {
    if a == [] then true
    else if b == [] then false
    else if a[0] != b[0] then FieldLe(a[0], b[0])
    else RowLe(a[1..], b[1..])
  }

  lemma FieldOrder(a: Field, b: Field, c: Field)
    ensures FieldLe(a, b) || FieldLe(b, a)
    ensures FieldLe(a, b) && FieldLe(b, a) ==> a == b
    ensures FieldLe(a, b) && FieldLe(b, c) ==> FieldLe(a, c)
  {
    LexTotalOrder();
  }

  lemma {:induction false} RowTotal(a: Row, b: Row)
    ensures RowLe(a, b) || RowLe(b, a)
    ensures RowLe(a, b) && RowLe(b, a) ==> a == b
  {
    if a != [] && b != [] {
      FieldOrder(a[0], b[0], a[0]);
      RowTotal(a[1..], b[1..]);
      assert a == [a[0]] + a[1..] && b == [b[0]] + b[1..];
    }
  }

  lemma {:induction false} RowTransitive(a: Row, b: Row, c: Row)
    requires RowLe(a, b) && RowLe(b, c)
    ensures RowLe(a, c)
  {
    if a != [] {
      FieldOrder(a[0], b[0], c[0]);
      FieldOrder(c[0], b[0], a[0]);
      if a[0] == b[0] && b[0] == c[0] {
        RowTransitive(a[1..], b[1..], c[1..]);
      }
    }
  }

  lemma RowOrder()
    ensures TotalOrder(RowLe)
  {
    forall a, b ensures (RowLe(a, b) || RowLe(b, a)) && (RowLe(a, b) && RowLe(b, a) ==> a == b) {
      RowTotal(a, b);
    }
    forall a, b, c | RowLe(a, b) && RowLe(b, c) ensures RowLe(a, c) {
      RowTransitive(a, b, c);
    }
  }

  // -- One file's block ------------------------------------------------------------------------

  ghost predicate AllShaped(table: Table, rows: seq<Row>) {
    forall row :: row in rows ==> Shaped(table, row)
  }

  /** The first row of every key not in `seen`, in order. */
  function Firsts(table: Table, rows: seq<Row>, seen: set<Row>): seq<Row>
    requires AllShaped(table, rows)
  {
    if rows == [] then []
    else if Key(table, rows[0]) in seen then Firsts(table, rows[1..], seen)
    else [rows[0]] + Firsts(table, rows[1..], seen + {Key(table, rows[0])})
  }

  /** What one file contributes: its rows sorted, one per key. */
  function Block(table: Table, rows: seq<Row>): seq<Row>
    requires AllShaped(table, rows)
  {
    SortKeepsShape(table, rows);
    Firsts(table, SortBy(RowLe, rows), {})
  }

  lemma SortKeepsShape(table: Table, rows: seq<Row>)
    requires AllShaped(table, rows)
    ensures AllShaped(table, SortBy(RowLe, rows))
  {
    SortByContent(RowLe, rows);
    SameMembers(SortBy(RowLe, rows), rows);
  }

  lemma {:induction false} FirstsFacts(table: Table, rows: seq<Row>, seen: set<Row>)
    requires AllShaped(table, rows)
    ensures var f := Firsts(table, rows, seen);
      && (forall row :: row in f ==> row in rows && Key(table, row) !in seen)
      && (forall i, j :: 0 <= i < j < |f| ==> Key(table, f[i]) != Key(table, f[j]))
      && (SortedBy(RowLe, rows) ==> SortedBy(RowLe, f))
  {
    if rows != [] {
      var k := Key(table, rows[0]);
      assert forall row :: row in rows <==> row == rows[0] || row in rows[1..];
      if k in seen {
        FirstsFacts(table, rows[1..], seen);
      } else {
        FirstsFacts(table, rows[1..], seen + {k});
        var rest := Firsts(table, rows[1..], seen + {k});
        forall row | row in rest ensures Key(table, row) != k && (SortedBy(RowLe, rows) ==> RowLe(rows[0], row)) {
          assert row in rows[1..];
          if SortedBy(RowLe, rows) {
            var i :| 0 <= i < |rows[1..]| && rows[1..][i] == row;
            assert rows[i + 1] == row;
          }
        }
      }
    }
  }

  lemma BlockFacts(table: Table, rows: seq<Row>)
    requires AllShaped(table, rows)
    ensures var b := Block(table, rows);
      && AllShaped(table, b) && SortedBy(RowLe, b)
      && (forall i, j :: 0 <= i < j < |b| ==> Key(table, b[i]) != Key(table, b[j]))
      && (forall row :: row in b ==> row in rows)
  {
    RowOrder();
    SortKeepsShape(table, rows);
    SortByContent(RowLe, rows);
    SameMembers(SortBy(RowLe, rows), rows);
    SortBySorted(RowLe, rows);
    FirstsFacts(table, SortBy(RowLe, rows), {});
  }

  /** A block forgets the order its rows arrived in. */
  lemma BlockIgnoresOrder(table: Table, a: seq<Row>, b: seq<Row>)
    requires AllShaped(table, a) && multiset(a) == multiset(b)
    ensures AllShaped(table, b) && Block(table, a) == Block(table, b)
  {
    RowOrder();
    SameMembers(a, b);
    SortCanonical(RowLe, a, b);
  }

  /** Rows already sorted with distinct keys are their own block. */
  lemma {:induction false} FirstsOfDistinct(table: Table, rows: seq<Row>, seen: set<Row>)
    requires AllShaped(table, rows)
    requires forall i, j :: 0 <= i < j < |rows| ==> Key(table, rows[i]) != Key(table, rows[j])
    requires forall row :: row in rows ==> Key(table, row) !in seen
    ensures Firsts(table, rows, seen) == rows
  {
    if rows != [] {
      assert rows[0] in rows;
      forall row | row in rows[1..] ensures Key(table, row) !in seen + {Key(table, rows[0])} {
        var i :| 0 <= i < |rows[1..]| && rows[1..][i] == row;
        assert rows[i + 1] == row;
      }
      FirstsOfDistinct(table, rows[1..], seen + {Key(table, rows[0])});
    }
  }

  lemma BlockOfSorted(table: Table, rows: seq<Row>)
    requires AllShaped(table, rows) && SortedBy(RowLe, rows)
    requires forall i, j :: 0 <= i < j < |rows| ==> Key(table, rows[i]) != Key(table, rows[j])
    ensures Block(table, rows) == rows
  {
    RowOrder();
    SortOfSorted(RowLe, rows);
    FirstsOfDistinct(table, rows, {});
  }

  // -- The merged table ------------------------------------------------------------------------

  type PerFile = map<string, seq<Row>>

  ghost predicate WellFormed(table: Table, files: PerFile) {
    forall p :: p in files ==> AllShaped(table, files[p])
  }

  datatype Entry = Entry(path: string, row: Row)

  function Tagged(path: string, rows: seq<Row>): seq<Entry> {
    seq(|rows|, i requires 0 <= i < |rows| => Entry(path, rows[i]))
  }

  /** The blocks of the given paths, one after the other. */
  ghost function Merged(table: Table, files: PerFile, paths: seq<string>): seq<Entry>
    requires WellFormed(table, files) && forall p :: p in paths ==> p in files
  {
    if paths == [] then []
    else
      var last := paths[|paths| - 1];
      Merged(table, files, paths[..|paths| - 1]) + Tagged(last, Block(table, files[last]))
  }

  ghost predicate EntriesShaped(table: Table, entries: seq<Entry>) {
    forall e :: e in entries ==> Shaped(table, e.row)
  }

  function Numbered(table: Table, entries: seq<Entry>): seq<Record>
    requires EntriesShaped(table, entries)
  {
    seq(|entries|, i requires 0 <= i < |entries| => Record(entries[i].path, Content(table, entries[i].row), i))
  }

  lemma {:induction false} MergedFacts(table: Table, files: PerFile, paths: seq<string>)
    requires WellFormed(table, files) && forall p :: p in paths ==> p in files
    ensures EntriesShaped(table, Merged(table, files, paths))
    ensures forall e :: e in Merged(table, files, paths) ==> e.path in paths && e.row in Block(table, files[e.path])
  {
    if paths != [] {
      var init, last := paths[..|paths| - 1], paths[|paths| - 1];
      MergedFacts(table, files, init);
      BlockFacts(table, files[last]);
      var tail := Tagged(last, Block(table, files[last]));
      forall e | e in tail ensures e.path == last && e.row in Block(table, files[last]) {
      }
      assert paths == init + [last];
    }
  }

  /** `globalize`: every table in path order, each file's block in row order, numbered from 0. */
  ghost function Globalize(table: Table, files: PerFile): seq<Record>
    requires WellFormed(table, files)
  {
    var paths := SortedSet(files.Keys);
    MergedFacts(table, files, paths);
    Numbered(table, Merged(table, files, paths))
  }

  /** The result depends on the rows, not on the order in which workers delivered them. */
  lemma {:induction false} MergedIgnoresOrder(table: Table, a: PerFile, b: PerFile, paths: seq<string>)
    requires WellFormed(table, a) && WellFormed(table, b)
    requires forall p :: p in paths ==> p in a && p in b && multiset(a[p]) == multiset(b[p])
    ensures Merged(table, a, paths) == Merged(table, b, paths)
  {
    if paths != [] {
      MergedIgnoresOrder(table, a, b, paths[..|paths| - 1]);
      BlockIgnoresOrder(table, a[paths[|paths| - 1]], b[paths[|paths| - 1]]);
    }
  }

  lemma GlobalizeIgnoresOrder(table: Table, a: PerFile, b: PerFile)
    requires WellFormed(table, a) && WellFormed(table, b)
    requires a.Keys == b.Keys && forall p :: p in a ==> multiset(a[p]) == multiset(b[p])
    ensures Globalize(table, a) == Globalize(table, b)
  {
    MergedIgnoresOrder(table, a, b, SortedSet(a.Keys));
  }

  // -- Reuse -----------------------------------------------------------------------------------

  /** `filerich_from_records`: the recorded sequence number stands in for the line number. */
  function Reused(table: Table, path: string, records: seq<Record>): seq<Row> {
    if records == [] then []
    else
      var init, last := Reused(table, path, records[..|records| - 1]), records[|records| - 1];
      if last.path == path then init + [WithLine(table, last.seqno, last.content)] else init
  }

  function WithLine(table: Table, line: nat, content: Row): Row {
    if HasLine(table) then [Num(line)] + content else content
  }

  /** A block whose line numbers were replaced by consecutive numbers from `base`. */
  function Renumbered(table: Table, rows: seq<Row>, base: nat): seq<Row>
    requires forall row :: row in rows ==> Shaped(table, row)
  {
    seq(|rows|, i requires 0 <= i < |rows| =>
      WithLine(table, base + i, Content(table, rows[i])))
  }

  lemma {:induction false} ReusedConcat(table: Table, path: string, a: seq<Record>, b: seq<Record>)
    ensures Reused(table, path, a + b) == Reused(table, path, a) + Reused(table, path, b)
  {
    if b == [] {
      assert a + b == a;
    } else {
      ReusedConcat(table, path, a, b[..|b| - 1]);
      assert (a + b)[..|a + b| - 1] == a + b[..|b| - 1];
    }
  }

  /** Numbering a suffix of entries starting at `base`. */
  function NumberedFrom(table: Table, entries: seq<Entry>, base: nat): seq<Record>
    requires EntriesShaped(table, entries)
  {
    seq(|entries|, i requires 0 <= i < |entries| => Record(entries[i].path, Content(table, entries[i].row), base + i))
  }

  /** Rows read back from records that are all of one path. */
  lemma {:induction false} ReusedAll(table: Table, p: string, records: seq<Record>)
    requires forall r :: r in records ==> r.path == p
    ensures |Reused(table, p, records)| == |records|
    ensures forall i :: 0 <= i < |records| ==>
      Reused(table, p, records)[i] == WithLine(table, records[i].seqno, records[i].content)
  {
    if records != [] {
      assert records[|records| - 1] in records;
      ReusedAll(table, p, records[..|records| - 1]);
    }
  }

  /** Record `i` is row `i` under the number `base + i`. */
  lemma NumberedAt(table: Table, path: string, rows: seq<Row>, base: nat)
    requires AllShaped(table, rows) && EntriesShaped(table, Tagged(path, rows))
    ensures var records := NumberedFrom(table, Tagged(path, rows), base);
      && |records| == |rows|
      && (forall i :: 0 <= i < |rows| ==> records[i] == Record(path, Content(table, rows[i]), base + i))
      && forall r :: r in records ==> r.path == path
  {
  }

  lemma ReusedOfTagged(table: Table, p: string, path: string, rows: seq<Row>, base: nat)
    requires AllShaped(table, rows) && EntriesShaped(table, Tagged(path, rows))
    ensures Reused(table, p, NumberedFrom(table, Tagged(path, rows), base)) ==
      if p == path then Renumbered(table, rows, base) else []
  {
    var records := NumberedFrom(table, Tagged(path, rows), base);
    NumberedAt(table, path, rows, base);
    if p == path {
      ReusedAll(table, p, records);
      SameRows(table, rows, base, records, Reused(table, p, records));
    } else {
      NoRecords(table, p, records);
    }
  }

  lemma SameRows(table: Table, rows: seq<Row>, base: nat, records: seq<Record>, reused: seq<Row>)
    requires AllShaped(table, rows) && |rows| == |records| == |reused|
    requires forall i :: 0 <= i < |rows| ==>
      records[i].content == Content(table, rows[i]) && records[i].seqno == base + i
    requires forall i :: 0 <= i < |records| ==> reused[i] == WithLine(table, records[i].seqno, records[i].content)
    ensures reused == Renumbered(table, rows, base)
  {
  }

  /** The records of a path are its block, numbered by position in the whole table. */
  lemma {:induction false} ReusedIsBlock(table: Table, files: PerFile, paths: seq<string>, p: string)
    returns (base: nat)
    requires WellFormed(table, files) && (forall q :: q in paths ==> q in files) && p in paths
    requires forall i, j :: 0 <= i < j < |paths| ==> paths[i] != paths[j]
    requires EntriesShaped(table, Merged(table, files, paths)) && AllShaped(table, Block(table, files[p]))
    ensures Reused(table, p, Numbered(table, Merged(table, files, paths)))
         == Renumbered(table, Block(table, files[p]), base)
  {
    var init, last := paths[..|paths| - 1], paths[|paths| - 1];
    assert paths == init + [last];
    MergedFacts(table, files, init);
    BlockFacts(table, files[last]);
    ReusedFromLast(table, files, init, last, p);
    if p == last {
      base := |Merged(table, files, init)|;
      NotInMerged(table, files, init, p);
    } else {
      base := ReusedIsBlock(table, files, init, p);
    }
  }

  /** The last path of a table contributes its own numbered block and nothing to other paths. */
  lemma ReusedFromLast(table: Table, files: PerFile, init: seq<string>, last: string, p: string)
    requires WellFormed(table, files) && last in files && forall q :: q in init ==> q in files
    requires var front, tail := Merged(table, files, init), Tagged(last, Block(table, files[last]));
      && EntriesShaped(table, front) && EntriesShaped(table, tail) && EntriesShaped(table, front + tail)
      && Merged(table, files, init + [last]) == front + tail
    requires AllShaped(table, Block(table, files[last]))
    ensures Reused(table, p, Numbered(table, Merged(table, files, init + [last]))) ==
      Reused(table, p, Numbered(table, Merged(table, files, init))) +
      (if p == last then Renumbered(table, Block(table, files[last]), |Merged(table, files, init)|) else [])
  {
    var front, tail := Merged(table, files, init), Tagged(last, Block(table, files[last]));
    NumberedConcat(table, front, tail);
    ReusedConcat(table, p, Numbered(table, front), NumberedFrom(table, tail, |front|));
    ReusedOfTagged(table, p, last, Block(table, files[last]), |front|);
  }

  lemma NumberedConcat(table: Table, front: seq<Entry>, tail: seq<Entry>)
    requires EntriesShaped(table, front) && EntriesShaped(table, front + tail)
    ensures EntriesShaped(table, tail)
    ensures Numbered(table, front + tail) == Numbered(table, front) + NumberedFrom(table, tail, |front|)
  {
    forall e | e in tail ensures Shaped(table, e.row) {
      assert e in front + tail;
    }
  }

  lemma {:induction false} NotInMerged(table: Table, files: PerFile, paths: seq<string>, p: string)
    requires WellFormed(table, files) && (forall q :: q in paths ==> q in files) && p !in paths
    requires EntriesShaped(table, Merged(table, files, paths))
    ensures Reused(table, p, Numbered(table, Merged(table, files, paths))) == []
  {
    MergedFacts(table, files, paths);
    NoRecords(table, p, Numbered(table, Merged(table, files, paths)));
  }

  lemma {:induction false} NoRecords(table: Table, p: string, records: seq<Record>)
    requires forall r :: r in records ==> r.path != p
    ensures Reused(table, p, records) == []
  {
    if records != [] {
      NoRecords(table, p, records[..|records| - 1]);
    }
  }

  /** Sequence numbers are as good as line numbers: they sort the block the same way. */
  lemma RenumberedBlock(table: Table, rows: seq<Row>, base: nat)
    requires AllShaped(table, rows)
    requires AllShaped(table, Block(table, rows))
    ensures var r := Renumbered(table, Block(table, rows), base);
      && AllShaped(table, r) && Block(table, r) == r
      && forall i :: 0 <= i < |r| ==> Content(table, r[i]) == Content(table, Block(table, rows)[i])
  {
    var b := Block(table, rows);
    var r := Renumbered(table, b, base);
    BlockFacts(table, rows);
    forall i | 0 <= i < |r|
      ensures Shaped(table, r[i]) && Content(table, r[i]) == Content(table, b[i])
    {
      assert b[i] in b;
    }
    forall i, j | 0 <= i < j < |r| ensures RowLe(r[i], r[j]) && Key(table, r[i]) != Key(table, r[j]) {
      assert b[i] in b && b[j] in b;
      if table.Syms? {
        assert Key(table, r[i]) == r[i][1..3] == b[i][1..3];
        assert Key(table, r[j]) == r[j][1..3] == b[j][1..3];
      }
      if HasLine(table) {
        assert r[i][0] == Num(base + i) && r[j][0] == Num(base + j);
      }
    }
    BlockOfSorted(table, r);
  }
}
