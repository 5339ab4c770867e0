/** What a finalized snapshot holds: its tables read back, and its text line by line. */
module FinalTables {
  import opened Sorting
  import opened Canonical
  import opened CanonicalOrder
  import opened FileBuild
  import opened RichIncrement
  import opened IncrementalV2
  import opened Envelope
  import opened Snapshots
  import opened SnapshotsV2
  import G = Globalize
  import GF = GlobalizeFacts

  // -- Rows as extraction makes them -----------------------------------------------------------------------

  predicate SymWord(t: string) {
    t == "module" || t == "fn" || t == "record" || t == "use"
  }

  predicate RelWord(t: string) {
    t == "defines" || t == "references" || t == "depends-on" || t == "rfc-ref"
  }

  /** (kind, name, digest), (level, title, digest), (relation, target), (pressure id). */
  predicate TypedContent(table: G.Table, c: G.Row) {
    match table
    case Syms => |c| == 3 && c[0].Text? && SymWord(c[0].t) && c[1].Text? && c[2].Num?
    case Headings => |c| == 3 && c[0].Num? && 1 <= c[0].n <= 6 && c[1].Text? && c[2].Num?
    case Rels => |c| == 2 && c[0].Text? && RelWord(c[0].t) && c[1].Text?
    case Press => |c| == 1 && c[0].Text?
  }

  /** The extraction only makes rows of known kinds. */
  ghost predicate Typed(extract: Extract) {
    && Extracts(extract)
    && forall table, path, data :: TypedRows(table, extract(table, path, data))
  }

  ghost predicate TypedRows(table: G.Table, rows: seq<G.Row>) {
    forall row :: row in rows ==>
      row != [] && TypedContent(table, if table.Syms? || table.Headings? then row[1..] else row)
  }

  ghost predicate TypedTable(table: G.Table, records: seq<G.Record>) {
    && (forall i :: 0 <= i < |records| ==> TypedContent(table, records[i].content) && records[i].seqno == i)
    && forall i, j :: 0 <= i < j < |records| ==> LexLe(records[i].path, records[j].path)
  }

  lemma RebuiltIsTyped(extract: Extract, table: G.Table, corpus: Corpus)
    requires Typed(extract)
    ensures TypedTable(table, Rebuild(extract, table, corpus))
  {
    var files := ExtractAll(extract, table, corpus);
    var entries := GF.TableIsPrinted(table, files);
    forall i | 0 <= i < |entries| ensures TypedContent(table, Rebuild(extract, table, corpus)[i].content) {
      assert entries[i] in entries;
      var p := entries[i].path;
      assert TypedRows(table, extract(table, p, corpus[p]));
      assert entries[i].row in extract(table, p, corpus[p]);
    }
  }

  // -- Reading the records back ----------------------------------------------------------------------------

  predicate IsOf(table: G.Table, r: Record) {
    match table case Syms => r.SymRec? case Headings => r.Heading? case Rels => r.Rel? case Press => r.Press?
  }

  function RowOfRecord(r: Record): G.Record
    requires IsRich(r)
  {
    match r
    case SymRec(path, sym, name, ndigest, seqno) =>
      var word := match sym case ModuleDecl => "module" case FnDecl => "fn" case RecordDecl => "record"
                  case UseDecl => "use";
      G.Record(path, [G.Text(word), G.Text(name), G.Num(ndigest)], seqno)
    case Heading(path, level, seqno, tdigest, title) =>
      G.Record(path, [G.Num(level), G.Text(title), G.Num(tdigest)], seqno)
    case Rel(src, rel, dst, seqno) =>
      var word := match rel case Defines => "defines" case References => "references"
                  case DependsOn => "depends-on" case RfcRef => "rfc-ref";
      G.Record(src, [G.Text(word), G.Text(dst)], seqno)
    case Press(path, pid, seqno) => G.Record(path, [G.Text(pid)], seqno)
  }

  /** The rows of one table, in the order in which their records come. */
  function ReadTable(table: G.Table, records: seq<Record>): seq<G.Record> {
    if records == [] then []
    else
      var rest := ReadTable(table, records[1..]);
      if IsOf(table, records[0]) && IsRich(records[0]) then [RowOfRecord(records[0])] + rest else rest
  }

  lemma RowReads(table: G.Table, r: G.Record)
    requires TypedContent(table, r.content)
    ensures var x := RichRecord(table, r); IsRich(x) && RowOfRecord(x) == r
    ensures forall other: G.Table :: IsOf(other, RichRecord(table, r)) <==> other == table
  {
    match table
    case Syms => assert r.content == [r.content[0], r.content[1], r.content[2]];
    case Headings => assert r.content == [r.content[0], r.content[1], r.content[2]];
    case Rels => assert r.content == [r.content[0], r.content[1]];
    case Press => assert r.content == [r.content[0]];
  }

  lemma {:induction false} ReadConcat(table: G.Table, a: seq<Record>, b: seq<Record>)
    ensures ReadTable(table, a + b) == ReadTable(table, a) + ReadTable(table, b)
  {
    if a == [] {
      assert a + b == b;
    } else {
      ReadConcat(table, a[1..], b);
      assert (a + b)[0] == a[0] && (a + b)[1..] == a[1..] + b;
      ReadHead(table, a);
      ReadHead(table, a + b);
    }
  }

  lemma {:induction false} ReadEach(table: G.Table, other: G.Table, rows: seq<G.Record>)
    requires forall r :: r in rows ==> TypedContent(other, r.content)
    ensures ReadTable(table, Each(r => RichRecord(other, r), rows)) == if table == other then rows else []
  {
    var f := r => RichRecord(other, r);
    if rows != [] {
      assert rows[0] in rows;
      RowReads(other, rows[0]);
      assert Each(f, rows)[1..] == Each(f, rows[1..]);
      ReadEach(table, other, rows[1..]);
      assert rows == [rows[0]] + rows[1..];
      ReadHead(table, Each(f, rows));
    }
  }

  lemma ReadHead(table: G.Table, records: seq<Record>)
    requires records != []
    ensures ReadTable(table, records) ==
      (if IsOf(table, records[0]) && IsRich(records[0]) then [RowOfRecord(records[0])] else [])
      + ReadTable(table, records[1..])
  {
  }

  ghost predicate TypedTables(rich: RichTables) {
    forall table: G.Table :: TypedTable(table, rich.Of(table))
  }

  lemma TypedMembers(table: G.Table, records: seq<G.Record>)
    requires TypedTable(table, records)
    ensures forall r :: r in records ==> TypedContent(table, r.content)
  {
  }

  /** The records of a snapshot give back every table, field by field and in order. */
  lemma TablesRead(rich: RichTables, table: G.Table)
    requires TypedTables(rich)
    ensures ReadTable(table, RichRecords(rich)) == rich.Of(table)
  {
    assert TypedTable(G.Syms, rich.Of(G.Syms)) && TypedTable(G.Headings, rich.Of(G.Headings));
    assert TypedTable(G.Rels, rich.Of(G.Rels)) && TypedTable(G.Press, rich.Of(G.Press));
    var s, h := Each(r => RichRecord(G.Syms, r), rich.syms), Each(r => RichRecord(G.Headings, r), rich.headings);
    var l, p := Each(r => RichRecord(G.Rels, r), rich.rels), Each(r => RichRecord(G.Press, r), rich.press);
    TypedMembers(G.Syms, rich.syms);
    TypedMembers(G.Headings, rich.headings);
    TypedMembers(G.Rels, rich.rels);
    TypedMembers(G.Press, rich.press);
    ReadEach(table, G.Syms, rich.syms);
    ReadEach(table, G.Headings, rich.headings);
    ReadEach(table, G.Rels, rich.rels);
    ReadEach(table, G.Press, rich.press);
    ReadConcat(table, s, h);
    ReadConcat(table, s + h, l);
    ReadConcat(table, s + h + l, p);
  }

  // -- The rich lines ------------------------------------------------------------------------------------------

  /** The line of a row, with the words the row itself has. */
  function RowLine(table: G.Table, r: G.Record): string
    requires TypedContent(table, r.content)
  {
    match table
    case Syms =>
      "sym " + r.path + " " + r.content[0].t + " " + r.content[1].t + " " + Hex16(r.content[2].n) + " " + Dec(r.seqno)
    case Headings =>
      "heading " + r.path + " " + Dec(r.content[0].n) + " " + Dec(r.seqno) + " " + Hex16(r.content[2].n) + " "
      + r.content[1].t
    case Rels => "rel " + r.path + " " + r.content[0].t + " " + r.content[1].t + " " + Dec(r.seqno)
    case Press => "press " + r.path + " " + r.content[0].t + " " + Dec(r.seqno)
  }

  lemma LineOfRow(table: G.Table, r: G.Record)
    requires TypedContent(table, r.content)
    ensures CanonLine(RichRecord(table, r)) == RowLine(table, r)
  {
    match table
    case Syms => SymLine(r.path, r.content[0].t, r.content[1].t, Hex16(r.content[2].n), Dec(r.seqno));
    case Headings =>
      HeadingLine(r.path, Dec(r.content[0].n), Dec(r.seqno), Hex16(r.content[2].n), r.content[1].t);
    case Rels => RelLine(r.path, r.content[0].t, r.content[1].t, Dec(r.seqno));
    case Press => PressLine(r.path, r.content[0].t, Dec(r.seqno));
  }

  lemma SymLine(a: string, b: string, c: string, d: string, e: string)
    ensures "sym" + SP + (a + SP + b + SP + c + SP + d + SP + e) == "sym " + a + " " + b + " " + c + " " + d + " " + e
  {
  }

  lemma HeadingLine(a: string, b: string, c: string, d: string, e: string)
    ensures "heading" + SP + (a + SP + (b + SP + (c + SP + (d + SP + e))))
         == "heading " + a + " " + b + " " + c + " " + d + " " + e
  {
  }

  lemma RelLine(a: string, b: string, c: string, d: string)
    ensures "rel" + SP + (a + SP + (b + SP + (c + SP + d))) == "rel " + a + " " + b + " " + c + " " + d
  {
  }

  lemma PressLine(a: string, b: string, c: string)
    ensures "press" + SP + (a + SP + b + SP + c) == "press " + a + " " + b + " " + c
  {
  }

  function RowLines(table: G.Table, rows: seq<G.Record>): seq<string>
    requires forall i :: 0 <= i < |rows| ==> TypedContent(table, rows[i].content)
  {
    seq(|rows|, i requires 0 <= i < |rows| => RowLine(table, rows[i]))
  }

  lemma LinesOfRows(table: G.Table, rows: seq<G.Record>)
    requires forall i :: 0 <= i < |rows| ==> TypedContent(table, rows[i].content)
    ensures Lines(Each(r => RichRecord(table, r), rows)) == RowLines(table, rows)
  {
    forall i | 0 <= i < |rows| ensures CanonLine(RichRecord(table, rows[i])) == RowLine(table, rows[i]) {
      LineOfRow(table, rows[i]);
    }
  }

  /** The lines of all tables: symbols, headings, relations, pressure ids. */
  ghost function RichLines(rich: RichTables): seq<string>
    requires TypedTables(rich)
  {
    assert forall table: G.Table :: TypedTable(table, rich.Of(table));
    assert TypedTable(G.Syms, rich.Of(G.Syms)) && TypedTable(G.Headings, rich.Of(G.Headings));
    assert TypedTable(G.Rels, rich.Of(G.Rels)) && TypedTable(G.Press, rich.Of(G.Press));
    RowLines(G.Syms, rich.syms) + RowLines(G.Headings, rich.headings)
    + RowLines(G.Rels, rich.rels) + RowLines(G.Press, rich.press)
  }

  lemma LinesOfTables(rich: RichTables)
    requires TypedTables(rich)
    ensures Lines(RichRecords(rich)) == RichLines(rich)
  {
    assert TypedTable(G.Syms, rich.Of(G.Syms)) && TypedTable(G.Headings, rich.Of(G.Headings));
    assert TypedTable(G.Rels, rich.Of(G.Rels)) && TypedTable(G.Press, rich.Of(G.Press));
    var s, h := Each(r => RichRecord(G.Syms, r), rich.syms), Each(r => RichRecord(G.Headings, r), rich.headings);
    var l, p := Each(r => RichRecord(G.Rels, r), rich.rels), Each(r => RichRecord(G.Press, r), rich.press);
    LinesOfRows(G.Syms, rich.syms);
    LinesOfRows(G.Headings, rich.headings);
    LinesOfRows(G.Rels, rich.rels);
    LinesOfRows(G.Press, rich.press);
    EachConcat(CanonLine, s + h + l, p);
    EachConcat(CanonLine, s + h, l);
    EachConcat(CanonLine, s, h);
  }

  // -- Nothing moves when the records are sorted ----------------------------------------------------------------

  lemma TableSorted(table: G.Table, rows: seq<G.Record>)
    requires TypedTable(table, rows)
    ensures SortedBy(KeyLe, Each(r => RichRecord(table, r), rows))
    ensures forall x :: x in Each(r => RichRecord(table, r), rows) ==> IsRich(x) && IsOf(table, x)
  {
    TypedMembers(table, rows);
    var records := Each(r => RichRecord(table, r), rows);
    forall i | 0 <= i < |records| ensures IsRich(records[i]) && IsOf(table, records[i]) {
      RowReads(table, rows[i]);
    }
    forall i, j | 0 <= i < j < |records| ensures KeyLe(records[i], records[j]) {
      RowKeys(table, rows[i], rows[j]);
    }
  }

  lemma RowKeys(table: G.Table, a: G.Record, b: G.Record)
    requires TypedContent(table, a.content) && TypedContent(table, b.content)
    requires LexLe(a.path, b.path) && a.seqno <= b.seqno
    ensures KeyLe(RichRecord(table, a), RichRecord(table, b))
  {
  }

  lemma SortedConcat(a: seq<Record>, b: seq<Record>, n: nat)
    requires SortedBy(KeyLe, a) && SortedBy(KeyLe, b)
    requires (forall x :: x in a ==> Rank(x) < n) && (forall x :: x in b ==> Rank(x) >= n)
    ensures SortedBy(KeyLe, a + b)
  {
    forall i, j | 0 <= i < |a| && 0 <= j < |b| ensures KeyLe(a[i], b[j]) {
      assert a[i] in a && b[j] in b;
    }
  }

  lemma RichSorted(rich: RichTables)
    requires TypedTables(rich)
    ensures SortBy(KeyLe, RichRecords(rich)) == RichRecords(rich) && forall x :: x in RichRecords(rich) ==> IsRich(x)
  {
    assert TypedTable(G.Syms, rich.Of(G.Syms)) && TypedTable(G.Headings, rich.Of(G.Headings));
    assert TypedTable(G.Rels, rich.Of(G.Rels)) && TypedTable(G.Press, rich.Of(G.Press));
    var s, h := Each(r => RichRecord(G.Syms, r), rich.syms), Each(r => RichRecord(G.Headings, r), rich.headings);
    var l, p := Each(r => RichRecord(G.Rels, r), rich.rels), Each(r => RichRecord(G.Press, r), rich.press);
    TableSorted(G.Syms, rich.syms);
    TableSorted(G.Headings, rich.headings);
    TableSorted(G.Rels, rich.rels);
    TableSorted(G.Press, rich.press);
    SortedConcat(s, h, 102);
    SortedConcat(s + h, l, 103);
    SortedConcat(s + h + l, p, 104);
    KeyOrder();
    SortOfSorted(KeyLe, RichRecords(rich));
  }

  /** Kinds of documents rank below terms. */
  ghost predicate KindsBelowTerms(k: Kernels, corpus: Corpus) {
    forall p :: p in corpus ==> k.kindOf(p) < TERM_RANK
  }

  lemma V1Sorted(k: Kernels, corpus: Corpus, docs: seq<Record>, terms: seq<Record>)
    requires Tables(k, corpus, docs, terms) && KindsBelowTerms(k, corpus)
    ensures SortBy(KeyLe, docs + terms) == docs + terms && forall x :: x in docs + terms ==> IsV1(x)
  {
    assert forall x :: x in docs ==> IsDoc(k, corpus, x) && Rank(x) < TERM_RANK;
    assert forall x :: x in terms ==> IsTerm(k, corpus, x);
    SortedConcat(docs, terms, TERM_RANK);
    KeyOrder();
    SortOfSorted(KeyLe, docs + terms);
  }

  // -- The whole snapshot ------------------------------------------------------------------------------------------

  /** What a finalized snapshot says about itself, and its text line by line. */
  ghost predicate Tells(k: Kernels, hash: Hash, id: string, generation: nat, withDigest: bool, marker: string,
                        lines: seq<string>, f: Final)
  {
    && f.text == Text([marker, "snapshot " + id] + lines + ["end"])
    && f.snap.id == id && f.snap.generation == generation && f.snap.hash == hash(f.text)
    && f.snap.fingerprint == (if withDigest then Hex16(DigestOf(k, f.text)) else "")
  }

  /** A v1 build holds its documents and its terms, and prints a line of each in their order. */
  lemma FinalTells(k: Kernels, hash: Hash, id: string, generation: nat, withDigest: bool, corpus: Corpus, f: Final)
    returns (docs: seq<Record>, terms: seq<Record>)
    requires IsFinal(k, hash, id, generation, withDigest, corpus, f) && KindsBelowTerms(k, corpus)
    ensures Tables(k, corpus, docs, terms) && f.snap.v1 == docs + terms && f.snap.rich == []
    ensures Tells(k, hash, id, generation, withDigest, "mncs-index canonical-v1", Lines(docs) + Lines(terms), f)
  {
    docs, terms :| Tables(k, corpus, docs, terms)
      && f == Finalized(k, hash, id, generation, docs, terms, withDigest);
    V1Sorted(k, corpus, docs, terms);
    EachConcat(CanonLine, docs, terms);
  }

  /** A v2 build holds the documents, the terms and all four tables of its corpus, every table field by field and in
      its order; its text has a line for every one of them and no other, in the order of the tables. */
  lemma FinalV2Tells(k: Kernels, extract: Extract, hash: Hash, id: string, generation: nat, withDigest: bool,
                     corpus: Corpus, f: Final)
    returns (docs: seq<Record>, terms: seq<Record>, rich: RichTables)
    requires Typed(extract) && IsFinalV2(k, extract, hash, id, generation, withDigest, corpus, f)
    requires KindsBelowTerms(k, corpus)
    ensures TablesV2(k, extract, corpus, docs, terms, rich) && f.snap.v1 == docs + terms && TypedTables(rich)
    ensures forall table: G.Table :: ReadTable(table, f.snap.rich) == rich.Of(table)
    ensures Tells(k, hash, id, generation, withDigest,
                  if RichLines(rich) == [] then "mncs-index canonical-v1" else "mncs-index canonical-v2",
                  Lines(docs) + Lines(terms) + RichLines(rich), f)
  {
    docs, terms, rich :| TablesV2(k, extract, corpus, docs, terms, rich) &&
      f == FinalizedV2(k, hash, id, generation, docs, terms, RichRecords(rich), withDigest);
    forall table: G.Table ensures TypedTable(table, rich.Of(table)) {
      RebuiltIsTyped(extract, table, corpus);
    }
    forall table: G.Table ensures ReadTable(table, RichRecords(rich)) == rich.Of(table) {
      TablesRead(rich, table);
    }
    V1Sorted(k, corpus, docs, terms);
    RichSorted(rich);
    AllIsV1ThenRich(docs + terms, RichRecords(rich));
    LinesOfTables(rich);
    EachConcat(CanonLine, docs, terms);
    EachConcat(CanonLine, docs + terms, RichRecords(rich));
    if RichRecords(rich) == [] {
      assert Lines(docs) + Lines(terms) + RichLines(rich) == Lines(docs) + Lines(terms);
    }
  }

  // -- The order of documents and terms ------------------------------------------------------------------------------

  predicate DocBefore(a: Record, b: Record) {
    && a.Doc? && b.Doc?
    && (a.kind < b.kind || (a.kind == b.kind && a.path != b.path && LexLe(a.path, b.path)))
  }

  predicate TermBefore(a: Record, b: Record) {
    && a.Term? && b.Term?
    && if a.path == b.path then a.seqno < b.seqno else LexLe(a.path, b.path)
  }

  /** Documents by kind, then by path; terms by path, then by their place in the file. */
  lemma TablesInOrder(k: Kernels, corpus: Corpus, docs: seq<Record>, terms: seq<Record>)
    requires Tables(k, corpus, docs, terms)
    ensures forall i, j :: 0 <= i < j < |docs| ==> DocBefore(docs[i], docs[j])
    ensures forall i, j :: 0 <= i < j < |terms| ==> TermBefore(terms[i], terms[j])
  {
    forall i, j | 0 <= i < j < |docs| ensures DocBefore(docs[i], docs[j]) {
      assert docs[i] in docs && docs[j] in docs;
      assert IsDoc(k, corpus, docs[i]) && IsDoc(k, corpus, docs[j]);
      assert KeyLe(docs[i], docs[j]) && docs[i] != docs[j];
    }
    forall i, j | 0 <= i < j < |terms| ensures TermBefore(terms[i], terms[j]) {
      assert terms[i] in terms && terms[j] in terms;
      assert IsTerm(k, corpus, terms[i]) && IsTerm(k, corpus, terms[j]);
      assert KeyLe(terms[i], terms[j]) && terms[i] != terms[j];
    }
  }
}
