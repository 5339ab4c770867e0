/** `finalize`: from record tables to the snapshot that is published, and why every build arrives at the same one. */
module Snapshots {
  import opened Options
  import opened Sorting
  import opened Canonical
  import opened CanonicalOrder
  import opened FileBuild
  import opened Envelope
  import opened Incremental
  import opened PipelineResults
  import P = PipelineMachine

  datatype Final = Final(snap: Snapshot, text: string)

  /** The v1 canonical text, its hash, and the tree digest of its bytes when one is asked for. */
  function Finalized(k: Kernels, hash: Hash, id: string, generation: nat, docs: seq<Record>, terms: seq<Record>,
                     withDigest: bool): Final
  {
    var text := CanonicalText(V1, id, SortBy(KeyLe, docs + terms));
    var fingerprint := if withDigest then Hex16(DigestOf(k, text)) else "";
    Final(Snapshot(id, generation, hash(text), fingerprint, docs + terms, []), text)
  }

  /** What a build of `corpus` may return. */
  ghost predicate IsFinal(k: Kernels, hash: Hash, id: string, generation: nat, withDigest: bool, corpus: Corpus,
                          f: Final)
  {
    exists docs, terms :: Tables(k, corpus, docs, terms) &&
        f == Finalized(k, hash, id, generation, docs, terms, withDigest)
  }

  ghost predicate Tables(k: Kernels, corpus: Corpus, docs: seq<Record>, terms: seq<Record>) {
    IsDocTable(k, corpus, docs) && IsTermTable(k, corpus, terms)
  }

  /** A corpus has one snapshot and one canonical text, whatever built it. */
  lemma OneSnapshot(k: Kernels, hash: Hash, id: string, generation: nat, withDigest: bool, corpus: Corpus, f: Final,
                    g: Final)
    requires IsFinal(k, hash, id, generation, withDigest, corpus, f)
    requires IsFinal(k, hash, id, generation, withDigest, corpus, g)
    ensures f == g
  {
    var docs, terms :| Tables(k, corpus, docs, terms) &&
        f == Finalized(k, hash, id, generation, docs, terms, withDigest);
    var docs', terms' :| Tables(k, corpus, docs', terms') &&
        g == Finalized(k, hash, id, generation, docs', terms', withDigest);
    TablesAreUnique(k, corpus, docs, docs', terms, terms');
  }

  /** Publish accepts what a build returns exactly when its number follows the declared base. */
  lemma BuiltIsAccepted(k: Kernels, hash: Hash, id: string, generation: nat, withDigest: bool, corpus: Corpus, f: Final,
                        base: Option<nat>, extra: Extra)
    requires IsFinal(k, hash, id, generation, withDigest, corpus, f)
    ensures Publish(hash, f.snap, f.text, base, extra).Stored?
      <==> generation == (if base.None? then 0 else base.value + 1)
  {
  }

  /** A concurrent build that returns normally, finalized: the one snapshot of its corpus. */
  method FinishBuild(b: P.Build, s: P.State, hash: Hash, id: string, generation: nat, withDigest: bool,
                     ghost run: seq<P.State>, ghost corpus: Corpus)
    returns (f: Final, failed: bool)
    requires P.IsRun(b, run) && s == run[|run| - 1] && s.main.Assembling?
    requires Planned(b.plans) && Lists(FilesOf(b.plans), corpus)
    ensures !failed && IsFinal(b.k, hash, id, generation, withDigest, corpus, f)
  {
    var docs, terms;
    docs, terms, failed := ConcurrentBuild(b, s, run, corpus);
    f := Finalized(b.k, hash, id, generation, docs, terms, withDigest);
    assert Tables(b.k, corpus, docs, terms);
  }

  /** `incremental_snapshot` with its text: unless two contents of one path share a digest, the snapshot that a build
      from nothing has. */
  method FinishIncrement(k: Kernels, previousDocs: seq<Record>, previousTerms: seq<Record>,
                         previousCrc: map<string, int>, items: seq<Item>, hash: Hash, id: string, generation: nat,
                         withDigest: bool, ghost before: Corpus, ghost after: Corpus)
    returns (f: Final, verdicts: map<string, int>, failed: bool)
    requires Tables(k, before, previousDocs, previousTerms) && ItemsOf(items, after)
    ensures !failed && verdicts.Keys == before.Keys + after.Keys
    ensures forall p :: p in verdicts ==> verdicts[p] == VerdictOf(k, before, after, p)
    ensures NoCollision(TreeDigests(k), before, after) ==> IsFinal(k, hash, id, generation, withDigest, after, f)
  {
    var docs, terms;
    docs, terms, verdicts, failed :=
      IncrementalSnapshot(k, previousDocs, previousTerms, previousCrc, items, before, after);
    f := Finalized(k, hash, id, generation, docs, terms, withDigest);
    assert NoCollision(TreeDigests(k), before, after) ==> Tables(k, after, docs, terms);
  }
}
