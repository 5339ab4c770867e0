/** `incremental_snapshot_v2`: the digest verdicts of the v1 increment decide which rich rows are reused. */
module IncrementalV2 {
  import opened FileBuild
  import opened Incremental
  import opened Globalize
  import opened GlobalizeLoops
  import opened RichIncrement
  import V1 = Canonical

  datatype RichTables = RichTables(syms: seq<Record>, headings: seq<Record>, rels: seq<Record>, press: seq<Record>) {
    function Of(table: Table): seq<Record> {
      match table case Syms => syms case Headings => headings case Rels => rels case Press => press
    }
  }

  /** The rows of one file, table by table. */
  datatype FileRich = FileRich(syms: seq<Row>, headings: seq<Row>, rels: seq<Row>, press: seq<Row>) {
    function Of(table: Table): seq<Row> {
      match table case Syms => syms case Headings => headings case Rels => rels case Press => press
    }
  }

  // -- Rows of one file ------------------------------------------------------------------------------

  function Width(table: Table): nat {
    match table case Syms => 3 case Headings => 3 case Rels => 2 case Press => 1
  }

  ghost predicate Columns(table: Table, records: seq<Record>) {
    forall r :: r in records ==> |r.content| == Width(table)
  }

  lemma {:induction false} ReusedShaped(table: Table, p: string, records: seq<Record>)
    requires Columns(table, records)
    ensures AllShaped(table, Reused(table, p, records))
  {
    if records != [] {
      ReusedShaped(table, p, records[..|records| - 1]);
      assert records[|records| - 1] in records;
    }
  }

  /** `filerich_from_records` for one table. */
  method RowsFromRecords(table: Table, path: string, records: seq<Record>) returns (rows: seq<Row>)
    ensures rows == Reused(table, path, records)
  {
    rows := [];
    for i := 0 to |records|
      invariant rows == Reused(table, path, records[..i])
    {
      assert records[..i + 1][..i] == records[..i];
      if records[i].path == path {
        rows := rows + [WithLine(table, records[i].seqno, records[i].content)];
      }
    }
    assert records[..|records|] == records;
  }

  method FilerichFromRecords(path: string, previous: RichTables) returns (rich: FileRich)
    ensures forall table: Table :: rich.Of(table) == Reused(table, path, previous.Of(table))
  {
    var syms := RowsFromRecords(Syms, path, previous.syms);
    var headings := RowsFromRecords(Headings, path, previous.headings);
    var rels := RowsFromRecords(Rels, path, previous.rels);
    var press := RowsFromRecords(Press, path, previous.press);
    rich := FileRich(syms, headings, rels, press);
  }

  function ExtractFile(extract: Extract, path: string, data: string): (rich: FileRich)
    ensures forall table: Table :: rich.Of(table) == extract(table, path, data)
  {
    FileRich(extract(Syms, path, data), extract(Headings, path, data), extract(Rels, path, data),
        extract(Press, path, data))
  }

  // -- All files ---------------------------------------------------------------------------------------

  function TableRows(perFile: map<string, FileRich>, table: Table): PerFile {
    map p | p in perFile :: perFile[p].Of(table)
  }

  ghost predicate RowsRight(extract: Extract, previous: RichTables, kept: set<string>, p: string, data: string,
                            rich: FileRich)
  {
    forall table: Table ::
      rich.Of(table) == if p in kept then Reused(table, p, previous.Of(table)) else extract(table, p, data)
  }

  /** Reuse where the verdict is 0, extract everywhere else. */
  method RichOf(extract: Extract, previous: RichTables, verdict: int, path: string, data: string,
                ghost kept: set<string>)
    returns (rich: FileRich)
    requires verdict == 0 <==> path in kept
    ensures RowsRight(extract, previous, kept, path, data, rich)
  {
    if verdict == 0 {
      rich := FilerichFromRecords(path, previous);
    } else {
      rich := ExtractFile(extract, path, data);
    }
  }

  ghost predicate AllRight(extract: Extract, previous: RichTables, kept: set<string>, corpus: Corpus,
                           perFile: map<string, FileRich>)
  {
    forall p :: p in perFile ==> p in corpus && RowsRight(extract, previous, kept, p, corpus[p], perFile[p])
  }

  method CollectRich(extract: Extract, previous: RichTables, verdicts: map<string, int>, items: seq<Item>,
                     ghost corpus: Corpus, ghost kept: set<string>)
    returns (perFile: map<string, FileRich>)
    requires ItemsOf(items, corpus)
    requires forall p :: p in corpus ==> p in verdicts && (verdicts[p] == 0 <==> p in kept)
    ensures perFile.Keys == corpus.Keys && AllRight(extract, previous, kept, corpus, perFile)
  {
    perFile := map[];
    ghost var files := AsFiles(items);
    for i := 0 to |items|
      invariant AllRight(extract, previous, kept, corpus, perFile)
      invariant forall j :: 0 <= j < i ==> items[j].path in perFile
    {
      assert files[i] == File(items[i].path, items[i].data);
      var rich := RichOf(extract, previous, verdicts[items[i].path], items[i].path, items[i].data, kept);
      perFile := perFile[items[i].path := rich];
    }
    forall p | p in corpus ensures p in perFile {
      var j :| 0 <= j < |files| && files[j] == File(p, corpus[p]);
    }
  }

  lemma RightRows(extract: Extract, table: Table, previous: RichTables, kept: set<string>, corpus: Corpus,
                  perFile: map<string, FileRich>)
    requires perFile.Keys == corpus.Keys && AllRight(extract, previous, kept, corpus, perFile)
    ensures TableRows(perFile, table) == MixedRows(extract, table, previous.Of(table), kept, corpus)
  {
    forall p | p in corpus
      ensures perFile[p].Of(table) == MixedRows(extract, table, previous.Of(table), kept, corpus)[p]
    {
      assert RowsRight(extract, previous, kept, p, corpus[p], perFile[p]);
    }
  }

  method GlobalizeTable(table: Table, perFile: map<string, FileRich>) returns (records: seq<Record>)
    requires WellFormed(table, TableRows(perFile, table))
    ensures records == Globalize.Globalize(table, TableRows(perFile, table))
  {
    var files := TableRows(perFile, table);
    if table.Syms? {
      records := GlobalizeSymbols(files);
    } else {
      records := GlobalizeRows(table, files);
    }
  }

  lemma MixedShaped(extract: Extract, table: Table, previous: seq<Record>, kept: set<string>, corpus: Corpus)
    requires Extracts(extract) && Columns(table, previous)
    ensures WellFormed(table, MixedRows(extract, table, previous, kept, corpus))
  {
    forall p | p in kept { ReusedShaped(table, p, previous); }
  }

  // -- The increment -----------------------------------------------------------------------------------

  /** The rich tables of a corpus. */
  ghost predicate AreRichTables(extract: Extract, corpus: Corpus, rich: RichTables)
    requires Extracts(extract)
  {
    forall table: Table :: rich.Of(table) == Rebuild(extract, table, corpus)
  }

  ghost predicate IsIncrement(k: Kernels, extract: Extract, previous: RichTables, before: Corpus, after: Corpus,
                              rich: RichTables)
  {
    forall table: Table ::
      rich.Of(table) == Increment(extract, TreeDigests(k), table, previous.Of(table), before, after)
  }

  /** The rich part of the increment, under the verdicts of the v1 part. */
  method IncrementRich(k: Kernels, extract: Extract, previous: RichTables, verdicts: map<string, int>, items: seq<Item>,
                       ghost before: Corpus, ghost after: Corpus)
    returns (rich: RichTables)
    requires ItemsOf(items, after) && Extracts(extract)
    requires forall p :: p in after ==> p in verdicts && verdicts[p] == VerdictOf(k, before, after, p)
    requires forall table: Table :: Columns(table, previous.Of(table))
    ensures IsIncrement(k, extract, previous, before, after, rich)
  {
    ghost var kept := Unchanged(TreeDigests(k), before, after);
    VerdictZero(k, before, after);
    var perFile := CollectRich(extract, previous, verdicts, items, after, kept);
    forall table: Table
      ensures TableRows(perFile, table) == MixedRows(extract, table, previous.Of(table), kept, after)
    {
      RightRows(extract, table, previous, kept, after, perFile);
    }
    forall table: Table ensures WellFormed(table, TableRows(perFile, table)) {
      MixedShaped(extract, table, previous.Of(table), kept, after);
    }
    rich := GlobalizeAll(perFile);
  }

  /** `globalize`. */
  method GlobalizeAll(perFile: map<string, FileRich>) returns (rich: RichTables)
    requires forall table: Table :: WellFormed(table, TableRows(perFile, table))
    ensures forall table: Table :: rich.Of(table) == Globalize.Globalize(table, TableRows(perFile, table))
  {
    var syms := GlobalizeTable(Syms, perFile);
    var headings := GlobalizeTable(Headings, perFile);
    var rels := GlobalizeTable(Rels, perFile);
    var press := GlobalizeTable(Press, perFile);
    rich := RichTables(syms, headings, rels, press);
  }

  lemma VerdictZero(k: Kernels, before: Corpus, after: Corpus)
    ensures forall p :: p in after ==>
      (VerdictOf(k, before, after, p) == 0 <==> p in Unchanged(TreeDigests(k), before, after))
  {
  }

  lemma IncrementOfRich(k: Kernels, extract: Extract, previous: RichTables, before: Corpus, after: Corpus,
                        rich: RichTables)
    requires Extracts(extract) && NoCollision(TreeDigests(k), before, after) && AreRichTables(extract, before, previous)
    requires IsIncrement(k, extract, previous, before, after, rich)
    ensures AreRichTables(extract, after, rich)
  {
    forall table: Table ensures rich.Of(table) == Rebuild(extract, table, after) {
      ChainStep(extract, TreeDigests(k), table, before, after);
    }
  }

  /** For any hints and any well-shaped previous tables: no failure, and the rich tables are the specified increment
      under the digest verdicts.  If the previous tables were those of the previous corpus, and no two contents of
      one path share a digest, documents, terms and rich tables are all those of the current corpus. */
  method IncrementalSnapshotV2(k: Kernels, extract: Extract, previousDocs: seq<V1.Record>,
                               previousTerms: seq<V1.Record>, previousRich: RichTables,
                               previousCrc: map<string, int>, items: seq<Item>, ghost before: Corpus,
                               ghost after: Corpus)
    returns (docs: seq<V1.Record>, terms: seq<V1.Record>, rich: RichTables, verdicts: map<string, int>,
             failed: bool)
    requires IsDocTable(k, before, previousDocs) && IsTermTable(k, before, previousTerms)
    requires ItemsOf(items, after) && Extracts(extract)
    requires forall table: Table :: Columns(table, previousRich.Of(table))
    ensures !failed && verdicts.Keys == before.Keys + after.Keys
    ensures forall p :: p in verdicts ==> verdicts[p] == VerdictOf(k, before, after, p)
    ensures IsIncrement(k, extract, previousRich, before, after, rich)
    ensures NoCollision(TreeDigests(k), before, after) ==> IsDocTable(k, after, docs) && IsTermTable(k, after, terms)
    ensures NoCollision(TreeDigests(k), before, after) && AreRichTables(extract, before, previousRich)
      ==> AreRichTables(extract, after, rich)
  {
    docs, terms, verdicts, failed := IncrementalSnapshot(k, previousDocs, previousTerms, previousCrc, items, before,
                                                         after);
    rich := IncrementRich(k, extract, previousRich, verdicts, items, before, after);
    if NoCollision(TreeDigests(k), before, after) && AreRichTables(extract, before, previousRich) {
      IncrementOfRich(k, extract, previousRich, before, after, rich);
    }
  }
}
