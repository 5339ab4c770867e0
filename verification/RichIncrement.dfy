/** Incremental rich tables equal a clean rebuild. */
module RichIncrement {
  import opened Sorting
  import opened FileBuild
  import opened Globalize

  /** `extract_file` as a function of table, path and content. */
  type Extract = (Table, string, string) -> seq<Row>

  ghost predicate Extracts(extract: Extract) {
    forall table, path, data :: AllShaped(table, extract(table, path, data))
  }

  function ExtractAll(extract: Extract, table: Table, corpus: Corpus): PerFile {
    map p | p in corpus :: extract(table, p, corpus[p])
  }

  /** `build_rich`: extract every file and merge. */
  ghost function Rebuild(extract: Extract, table: Table, corpus: Corpus): seq<Record>
    requires Extracts(extract)
  {
    Globalize.Globalize(table, ExtractAll(extract, table, corpus))
  }

  /** Rows for the merge: reused from the previous records where the verdict was "unchanged". */
  function MixedRows(extract: Extract, table: Table, previous: seq<Record>, kept: set<string>,
                     corpus: Corpus): PerFile
  {
    map p | p in corpus :: if p in kept then Reused(table, p, previous) else extract(table, p, corpus[p])
  }

  ghost predicate SameEntries(table: Table, a: seq<Entry>, b: seq<Entry>) {
    && |a| == |b| && EntriesShaped(table, a) && EntriesShaped(table, b)
    && forall i :: 0 <= i < |a| ==> a[i].path == b[i].path && Content(table, a[i].row) == Content(table, b[i].row)
  }

  lemma {:induction false} SameContentSameTable(table: Table, a: PerFile, b: PerFile, paths: seq<string>)
    requires WellFormed(table, a) && WellFormed(table, b)
    requires forall p :: p in paths ==> p in a && p in b && SameContents(table, Block(table, a[p]), Block(table, b[p]))
    ensures SameEntries(table, Merged(table, a, paths), Merged(table, b, paths))
  {
    if paths != [] {
      var init, last := paths[..|paths| - 1], paths[|paths| - 1];
      SameContentSameTable(table, a, b, init);
      assert last in paths;
      SameTagged(table, last, Block(table, a[last]), Block(table, b[last]));
    }
  }

  lemma SameTagged(table: Table, path: string, a: seq<Row>, b: seq<Row>)
    requires SameContents(table, a, b)
    ensures SameEntries(table, Tagged(path, a), Tagged(path, b))
  {
    forall i | 0 <= i < |a| ensures Shaped(table, a[i]) && Shaped(table, b[i]) {
      assert a[i] in a && b[i] in b;
    }
  }

  ghost predicate SameContents(table: Table, a: seq<Row>, b: seq<Row>) {
    && |a| == |b| && (forall row :: row in a ==> Shaped(table, row)) && (forall row :: row in b ==> Shaped(table, row))
    && forall i :: 0 <= i < |a| ==> Content(table, a[i]) == Content(table, b[i])
  }

  /** Where contents are equal, the stored records merge to the same block as a fresh extraction. */
  lemma ReuseIsFresh(extract: Extract, table: Table, before: Corpus, p: string)
    requires Extracts(extract) && p in before
    ensures var rows := Reused(table, p, Rebuild(extract, table, before));
      AllShaped(table, rows) && SameContents(table, Block(table, rows), Block(table, extract(table, p, before[p])))
  {
    var files := ExtractAll(extract, table, before);
    var paths := SortedSet(files.Keys);
    MergedFacts(table, files, paths);
    BlockFacts(table, files[p]);
    var base := ReusedIsBlock(table, files, paths, p);
    RenumberedBlock(table, files[p], base);
    assert forall row :: row in Block(table, files[p]) ==> Shaped(table, row);
  }

  /** If the kept paths really have equal content, the increment is the rebuild. */
  lemma IncrementIsRebuild(extract: Extract, table: Table, before: Corpus, after: Corpus, kept: set<string>)
    requires Extracts(extract)
    requires forall p :: p in kept && p in after ==> p in before && before[p] == after[p]
    ensures var mixed := MixedRows(extract, table, Rebuild(extract, table, before), kept, after);
      WellFormed(table, mixed) && Globalize.Globalize(table, mixed) == Rebuild(extract, table, after)
  {
    var previous := Rebuild(extract, table, before);
    var mixed := MixedRows(extract, table, previous, kept, after);
    var rebuilt := ExtractAll(extract, table, after);
    assert mixed.Keys == after.Keys && rebuilt.Keys == after.Keys;
    forall p | p in after
      ensures AllShaped(table, mixed[p]) && AllShaped(table, rebuilt[p])
      ensures SameContents(table, Block(table, mixed[p]), Block(table, rebuilt[p]))
    {
      MixedBlock(extract, table, before, after, kept, p);
    }
    var paths := SortedSet(after.Keys);
    SameContentSameTable(table, mixed, rebuilt, paths);
    SameRecords(table, Merged(table, mixed, paths), Merged(table, rebuilt, paths));
  }

  lemma SameRecords(table: Table, a: seq<Entry>, b: seq<Entry>)
    requires SameEntries(table, a, b)
    ensures Numbered(table, a) == Numbered(table, b)
  {
  }

  lemma MixedBlock(extract: Extract, table: Table, before: Corpus, after: Corpus, kept: set<string>, p: string)
    requires Extracts(extract) && p in after
    requires p in kept ==> p in before && before[p] == after[p]
    ensures var rows := MixedRows(extract, table, Rebuild(extract, table, before), kept, after)[p];
      && AllShaped(table, rows) && AllShaped(table, extract(table, p, after[p]))
      && SameContents(table, Block(table, rows), Block(table, extract(table, p, after[p])))
  {
    BlockFacts(table, extract(table, p, after[p]));
    if p in kept {
      ReuseIsFresh(extract, table, before, p);
    }
  }

  // -- Upgrading a snapshot without rich tables ---------------------------------------------------

  lemma {:induction false} FirstsSome(table: Table, rows: seq<Row>)
    requires AllShaped(table, rows)
    ensures Firsts(table, rows, {}) == [] <==> rows == []
  {
  }

  lemma BlockSome(table: Table, rows: seq<Row>)
    requires AllShaped(table, rows)
    ensures Block(table, rows) == [] <==> rows == []
  {
    SortKeepsShape(table, rows);
    SortByContent(RowLe, rows);
    FirstsSome(table, SortBy(RowLe, rows));
  }

  /** The records of a path tell how many rows its block has. */
  lemma RecordsOfPath(table: Table, files: PerFile, p: string)
    requires WellFormed(table, files) && p in files && AllShaped(table, files[p])
    ensures |Reused(table, p, Globalize.Globalize(table, files))| == |Block(table, files[p])|
  {
    var paths := SortedSet(files.Keys);
    MergedFacts(table, files, paths);
    BlockFacts(table, files[p]);
    var base := ReusedIsBlock(table, files, paths, p);
  }

  /** An increment on a snapshot that has no rich tables - a v1 snapshot - is the rebuild exactly when no kept path
      has rows; otherwise the rows of the kept paths are missing. */
  lemma UpgradeIsRebuildIff(extract: Extract, table: Table, kept: set<string>, after: Corpus)
    requires Extracts(extract)
    ensures var mixed := MixedRows(extract, table, [], kept, after);
      && WellFormed(table, mixed)
      && (Globalize.Globalize(table, mixed) == Rebuild(extract, table, after)
          <==> forall p :: p in kept && p in after ==> extract(table, p, after[p]) == [])
  {
    var mixed, rebuilt := MixedRows(extract, table, [], kept, after), ExtractAll(extract, table, after);
    if forall p :: p in kept && p in after ==> extract(table, p, after[p]) == [] {
      assert mixed == rebuilt;
    }
    if Globalize.Globalize(table, mixed) == Rebuild(extract, table, after) {
      forall p | p in kept && p in after ensures extract(table, p, after[p]) == [] {
        assert mixed[p] == [] && rebuilt[p] == extract(table, p, after[p]);
        RecordsOfPath(table, mixed, p);
        RecordsOfPath(table, rebuilt, p);
        BlockSome(table, mixed[p]);
        BlockSome(table, rebuilt[p]);
      }
    }
  }

  // -- Digests decide, and chains of increments ---------------------------------------------------

  function Unchanged(digest: ContentDigest, before: Corpus, after: Corpus): set<string> {
    set p | p in after && p in before && digest(before[p]) == digest(after[p])
  }

  ghost function Increment(extract: Extract, digest: ContentDigest, table: Table, previous: seq<Record>,
                           before: Corpus, after: Corpus): seq<Record>
  {
    var mixed := MixedRows(extract, table, previous, Unchanged(digest, before, after), after);
    if WellFormed(table, mixed) then Globalize.Globalize(table, mixed) else []
  }

  /** The tables after a first build of `corpora[0]` and one increment per later corpus. */
  ghost function AfterIncrements(extract: Extract, digest: ContentDigest, table: Table,
                                 corpora: seq<Corpus>): seq<Record>
    requires Extracts(extract) && corpora != []
  {
    var n := |corpora| - 1;
    if n == 0 then Rebuild(extract, table, corpora[0])
    else
      var before := AfterIncrements(extract, digest, table, corpora[..n]);
      Increment(extract, digest, table, before, corpora[n - 1], corpora[n])
  }

  ghost predicate Collisionless(digest: ContentDigest, corpora: seq<Corpus>) {
    forall i :: 0 < i < |corpora| ==> NoCollision(digest, corpora[i - 1], corpora[i])
  }

  lemma CollisionlessPrefix(digest: ContentDigest, corpora: seq<Corpus>)
    requires Collisionless(digest, corpora) && corpora != []
    ensures Collisionless(digest, corpora[..|corpora| - 1])
    ensures |corpora| > 1 ==> NoCollision(digest, corpora[|corpora| - 2], corpora[|corpora| - 1])
  {
    var init := corpora[..|corpora| - 1];
    forall i | 0 < i < |init| ensures NoCollision(digest, init[i - 1], init[i]) {
      assert NoCollision(digest, corpora[i - 1], corpora[i]);
    }
    if |corpora| > 1 {
      var n := |corpora| - 1;
      assert NoCollision(digest, corpora[n - 1], corpora[n]);
    }
  }

  /** However many increments were chained, the tables are those of a clean rebuild. */
  lemma {:induction false} AnyChainIsRebuild(extract: Extract, digest: ContentDigest, table: Table,
                                             corpora: seq<Corpus>)
    requires Extracts(extract) && corpora != [] && Collisionless(digest, corpora)
    ensures AfterIncrements(extract, digest, table, corpora) == Rebuild(extract, table, corpora[|corpora| - 1])
    decreases |corpora|
  {
    var n := |corpora| - 1;
    if n > 0 {
      var init := corpora[..n];
      CollisionlessPrefix(digest, corpora);
      AnyChainIsRebuild(extract, digest, table, init);
      ChainStep(extract, digest, table, corpora[n - 1], corpora[n]);
      LastIncrement(extract, digest, table, corpora);
    }
  }

  lemma LastIncrement(extract: Extract, digest: ContentDigest, table: Table, corpora: seq<Corpus>)
    requires Extracts(extract) && |corpora| > 1
    ensures var n := |corpora| - 1;
      AfterIncrements(extract, digest, table, corpora) ==
        Increment(extract, digest, table, AfterIncrements(extract, digest, table, corpora[..n]), corpora[n - 1],
                  corpora[n])
  {
  }

  lemma ChainStep(extract: Extract, digest: ContentDigest, table: Table, before: Corpus, after: Corpus)
    requires Extracts(extract) && NoCollision(digest, before, after)
    ensures Increment(extract, digest, table, Rebuild(extract, table, before), before, after)
         == Rebuild(extract, table, after)
  {
    IncrementIsRebuild(extract, table, before, after, Unchanged(digest, before, after));
  }
}
