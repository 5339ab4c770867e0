/** `finalize_v2`: rich tables become lines, and a v2 increment prints what a v2 rebuild prints. */
module SnapshotsV2 {
  import opened Options
  import opened Sorting
  import opened Canonical
  import opened CanonicalOrder
  import opened FileBuild
  import opened Incremental
  import opened RichIncrement
  import opened IncrementalV2
  import opened Envelope
  import opened PipelineResults
  import opened Snapshots
  import G = Globalize
  import Machine = PipelineMachine

  // -- Rich rows as records ------------------------------------------------------------------------------

  function TextAt(row: G.Row, i: nat): string {
    if i < |row| && row[i].Text? then row[i].t else ""
  }

  function NumAt(row: G.Row, i: nat): int {
    if i < |row| && row[i].Num? then row[i].n else 0
  }

  function SymOf(t: string): SymKind {
    if t == "module" then ModuleDecl else if t == "fn" then FnDecl else if t == "record" then RecordDecl else UseDecl
  }

  function RelOf(t: string): RelKind {
    if t == "defines" then Defines
    else if t == "references" then References
    else if t == "depends-on" then DependsOn
    else RfcRef
  }

  /** (kind, name, digest), (level, title, digest), (relation, target), (pressure id). */
  function RichRecord(table: G.Table, r: G.Record): Record {
    match table
    case Syms => SymRec(r.path, SymOf(TextAt(r.content, 0)), TextAt(r.content, 1), NumAt(r.content, 2), r.seqno)
    case Headings =>
      var level := NumAt(r.content, 0);
      Heading(r.path, if level < 0 then 0 else level, r.seqno, NumAt(r.content, 2), TextAt(r.content, 1))
    case Rels => Rel(r.path, RelOf(TextAt(r.content, 0)), TextAt(r.content, 1), r.seqno)
    case Press => Press(r.path, TextAt(r.content, 0), r.seqno)
  }

  function RichRecords(rich: RichTables): seq<Record> {
    Each(r => RichRecord(G.Syms, r), rich.syms) + Each(r => RichRecord(G.Headings, r), rich.headings)
    + Each(r => RichRecord(G.Rels, r), rich.rels) + Each(r => RichRecord(G.Press, r), rich.press)
  }

  // -- Finalization --------------------------------------------------------------------------------------

  /** Empty rich tables degrade to the v1 form. */
  function FinalizedV2(k: Kernels, hash: Hash, id: string, generation: nat, docs: seq<Record>, terms: seq<Record>,
                       rich: seq<Record>, withDigest: bool): Final
  {
    if rich == [] then Finalized(k, hash, id, generation, docs, terms, withDigest)
    else
      var text := CanonicalText(V2, id, SortedAll(docs + terms, rich));
      var fingerprint := if withDigest then Hex16(DigestOf(k, text)) else "";
      Final(Snapshot(id, generation, hash(text), fingerprint, docs + terms, rich), text)
  }

  ghost predicate TablesV2(k: Kernels, extract: Extract, corpus: Corpus, docs: seq<Record>, terms: seq<Record>,
                           rich: RichTables)
    requires Extracts(extract)
  {
    Tables(k, corpus, docs, terms) && AreRichTables(extract, corpus, rich)
  }

  /** What a v2 build or increment arriving at `corpus` may return. */
  ghost predicate IsFinalV2(k: Kernels, extract: Extract, hash: Hash, id: string, generation: nat, withDigest: bool,
                            corpus: Corpus, f: Final)
    requires Extracts(extract)
  {
    exists docs, terms, rich :: TablesV2(k, extract, corpus, docs, terms, rich) &&
        f == FinalizedV2(k, hash, id, generation, docs, terms, RichRecords(rich), withDigest)
  }

  /** A corpus has one v2 snapshot and one v2 text, whether it was built or reached by increments. */
  lemma OneSnapshotV2(k: Kernels, extract: Extract, hash: Hash, id: string, generation: nat, withDigest: bool,
                      corpus: Corpus, f: Final, g: Final)
    requires Extracts(extract)
    requires IsFinalV2(k, extract, hash, id, generation, withDigest, corpus, f)
    requires IsFinalV2(k, extract, hash, id, generation, withDigest, corpus, g)
    ensures f == g
  {
    var docs, terms, rich :| TablesV2(k, extract, corpus, docs, terms, rich) &&
        f == FinalizedV2(k, hash, id, generation, docs, terms, RichRecords(rich), withDigest);
    var docs', terms', rich' :| TablesV2(k, extract, corpus, docs', terms', rich') &&
        g == FinalizedV2(k, hash, id, generation, docs', terms', RichRecords(rich'), withDigest);
    TablesAreUnique(k, corpus, docs, docs', terms, terms');
    RichIsUnique(extract, corpus, rich, rich');
  }

  lemma RichIsUnique(extract: Extract, corpus: Corpus, a: RichTables, b: RichTables)
    requires Extracts(extract) && AreRichTables(extract, corpus, a) && AreRichTables(extract, corpus, b)
    ensures a == b
  {
    assert a.Of(G.Syms) == b.Of(G.Syms) && a.Of(G.Headings) == b.Of(G.Headings);
    assert a.Of(G.Rels) == b.Of(G.Rels) && a.Of(G.Press) == b.Of(G.Press);
  }

  /** Publish accepts it exactly when its number follows the declared base. */
  lemma BuiltIsAcceptedV2(k: Kernels, extract: Extract, hash: Hash, id: string, generation: nat, withDigest: bool,
                          corpus: Corpus, f: Final, base: Option<nat>, extra: Extra)
    requires Extracts(extract) && IsFinalV2(k, extract, hash, id, generation, withDigest, corpus, f)
    ensures Publish(hash, f.snap, f.text, base, extra).Stored?
      <==> generation == (if base.None? then 0 else base.value + 1)
  {
  }

  // -- Building and incrementing -------------------------------------------------------------------------

  /** `extract_many`: every file into its own slot. */
  method ExtractMany(extract: Extract, items: seq<Item>, ghost corpus: Corpus) returns (perFile: map<string, FileRich>)
    requires ItemsOf(items, corpus)
    ensures perFile.Keys == corpus.Keys
    ensures forall p :: p in perFile ==> perFile[p] == ExtractFile(extract, p, corpus[p])
  {
    perFile := map[];
    ghost var files := AsFiles(items);
    for i := 0 to |items|
      invariant forall p :: p in perFile ==> p in corpus && perFile[p] == ExtractFile(extract, p, corpus[p])
      invariant forall j :: 0 <= j < i ==> items[j].path in perFile
    {
      assert files[i] == File(items[i].path, items[i].data);
      perFile := perFile[items[i].path := ExtractFile(extract, items[i].path, items[i].data)];
    }
    forall p | p in corpus ensures p in perFile {
      var j :| 0 <= j < |files| && files[j] == File(p, corpus[p]);
    }
  }

  /** `build_rich`: extract, then merge. */
  method BuildRich(extract: Extract, items: seq<Item>, ghost corpus: Corpus) returns (rich: RichTables)
    requires ItemsOf(items, corpus) && Extracts(extract)
    ensures AreRichTables(extract, corpus, rich)
  {
    var perFile := ExtractMany(extract, items, corpus);
    forall table: G.Table ensures TableRows(perFile, table) == ExtractAll(extract, table, corpus) {
      assert forall p :: p in corpus ==> perFile[p].Of(table) == extract(table, p, corpus[p]);
    }
    rich := GlobalizeAll(perFile);
  }

  /** `build_snapshot_v2` after a concurrent build that returned normally. */
  method FinishBuildV2(b: Machine.Build, s: Machine.State, extract: Extract, items: seq<Item>, hash: Hash, id: string,
                       generation: nat, withDigest: bool, ghost run: seq<Machine.State>, ghost corpus: Corpus)
    returns (f: Final, failed: bool)
    requires Machine.IsRun(b, run) && s == run[|run| - 1] && s.main.Assembling?
    requires Planned(b.plans) && Lists(FilesOf(b.plans), corpus) && ItemsOf(items, corpus) && Extracts(extract)
    ensures !failed && IsFinalV2(b.k, extract, hash, id, generation, withDigest, corpus, f)
  {
    var docs, terms;
    docs, terms, failed := ConcurrentBuild(b, s, run, corpus);
    var rich := BuildRich(extract, items, corpus);
    f := FinalizedV2(b.k, hash, id, generation, docs, terms, RichRecords(rich), withDigest);
    assert TablesV2(b.k, extract, corpus, docs, terms, rich);
  }

  /** `incremental_snapshot_v2` with its text.  From the tables of the previous corpus, for any hints, and unless two
      contents of one path share a digest, it is the one v2 snapshot of the current corpus; the verdict map is that of
      the digests in any case. */
  method FinishIncrementV2(k: Kernels, extract: Extract, previousDocs: seq<Record>, previousTerms: seq<Record>,
                           previousRich: RichTables, previousCrc: map<string, int>, items: seq<Item>, hash: Hash,
                           id: string, generation: nat, withDigest: bool, ghost before: Corpus, ghost after: Corpus)
    returns (f: Final, verdicts: map<string, int>, failed: bool)
    requires Extracts(extract) && TablesV2(k, extract, before, previousDocs, previousTerms, previousRich)
    requires ItemsOf(items, after)
    ensures !failed && verdicts.Keys == before.Keys + after.Keys
    ensures forall p :: p in verdicts ==> verdicts[p] == VerdictOf(k, before, after, p)
    ensures NoCollision(TreeDigests(k), before, after)
      ==> IsFinalV2(k, extract, hash, id, generation, withDigest, after, f)
  {
    RichColumns(extract, before, previousRich);
    var docs, terms, rich;
    docs, terms, rich, verdicts, failed :=
      IncrementalSnapshotV2(k, extract, previousDocs, previousTerms, previousRich, previousCrc, items, before, after);
    f := FinalizedV2(k, hash, id, generation, docs, terms, RichRecords(rich), withDigest);
    assert NoCollision(TreeDigests(k), before, after) ==> TablesV2(k, extract, after, docs, terms, rich);
  }

  /** The tables of a corpus have the columns of their kind. */
  lemma RichColumns(extract: Extract, corpus: Corpus, rich: RichTables)
    requires Extracts(extract) && AreRichTables(extract, corpus, rich)
    ensures forall table: G.Table :: Columns(table, rich.Of(table))
  {
    forall table: G.Table ensures Columns(table, rich.Of(table)) {
      RebuildColumns(extract, table, corpus);
    }
  }

  lemma RebuildColumns(extract: Extract, table: G.Table, corpus: Corpus)
    requires Extracts(extract)
    ensures Columns(table, Rebuild(extract, table, corpus))
  {
    var files := ExtractAll(extract, table, corpus);
    NumberedColumns(table, files);
  }

  lemma NumberedColumns(table: G.Table, files: G.PerFile)
    requires G.WellFormed(table, files)
    ensures Columns(table, G.Globalize(table, files))
  {
    var paths := SortedSet(files.Keys);
    G.MergedFacts(table, files, paths);
    var entries := G.Merged(table, files, paths);
    forall i | 0 <= i < |entries| ensures |G.Numbered(table, entries)[i].content| == Width(table) {
      assert entries[i] in entries;
    }
  }
}
