/** Incremental documents and terms equal a full build, whatever the hints said. */
module Incremental {
  import opened Collections
  import opened Sorting
  import opened Digest
  import opened Canonical
  import opened CanonicalOrder
  import opened FileBuild

  /** A discovered file with its CRC hint. */
  datatype Item = Item(path: string, data: Bytes, crc: int)

  /** `classify_change`: 0 same, 1 added, 2 removed, 3 modified. */
  function ClassifyChange(oldPresent: bool, oldDigest: int, newPresent: bool, newDigest: int): nat {
    if oldPresent then (if newPresent then (if oldDigest == newDigest then 0 else 3) else 2)
    else (if newPresent then 1 else 0)
  }

  ghost predicate KeptPath(k: Kernels, before: Corpus, after: Corpus, p: string) {
    p in before && p in after && DigestOf(k, before[p]) == DigestOf(k, after[p])
  }

  /** What the change map must say about `p`. */
  ghost function VerdictOf(k: Kernels, before: Corpus, after: Corpus, p: string): nat {
    if p !in before then 1
    else if p !in after then 2
    else if DigestOf(k, before[p]) == DigestOf(k, after[p]) then 0
    else 3
  }

  ghost predicate ItemsOf(items: seq<Item>, corpus: Corpus) {
    Lists(AsFiles(items), corpus)
  }

  function AsFiles(items: seq<Item>): seq<File> {
    seq(|items|, i requires 0 <= i < |items| => File(items[i].path, items[i].data))
  }

  // -- Lookups -----------------------------------------------------------------------------------

  ghost predicate Documents(docs: seq<Record>) {
    (forall d :: d in docs ==> d.Doc?) && forall d, e :: d in docs && e in docs && d.path == e.path ==> d == e
  }

  /** `{d.path: d for d in docs}`. */
  method IndexDocs(docs: seq<Record>) returns (m: map<string, Record>)
    requires Documents(docs)
    ensures forall d :: d in docs <==> d.Doc? && d.path in m && m[d.path] == d
    ensures forall p :: p in m ==> m[p].Doc? && m[p].path == p
  {
    m := map[];
    for i := 0 to |docs|
      invariant forall p :: p in m ==> m[p].Doc? && m[p].path == p && m[p] in docs
      invariant forall j :: 0 <= j < i ==> docs[j].path in m && m[docs[j].path] == docs[j]
    {
      assert docs[i] in docs;
      m := m[docs[i].path := docs[i]];
    }
  }

  function OfPath(terms: seq<Record>, path: string): seq<Record>
    requires forall t :: t in terms ==> t.Term?
  {
    if terms == [] then []
    else
      var init := OfPath(terms[..|terms| - 1], path);
      if terms[|terms| - 1].path == path then init + [terms[|terms| - 1]] else init
  }

  lemma {:induction false} OfPathFacts(terms: seq<Record>, path: string)
    requires forall t :: t in terms ==> t.Term?
    ensures forall r :: r in OfPath(terms, path) <==> r in terms && r.path == path
    ensures NoRepeats(terms) ==> NoRepeats(OfPath(terms, path))
  {
    if terms != [] {
      var init, last := terms[..|terms| - 1], terms[|terms| - 1];
      OfPathFacts(init, path);
      assert forall r :: r in terms <==> r in init || r == last;
      if NoRepeats(terms) {
        forall i, j | 0 <= i < j < |init| ensures init[i] != init[j] {
          assert terms[i] != terms[j];
        }
        assert last !in init;
      }
    }
  }

  /** `setdefault(t.path, []).append(t)`. */
  method GroupTerms(terms: seq<Record>) returns (m: map<string, seq<Record>>)
    requires forall t :: t in terms ==> t.Term?
    ensures forall p :: (if p in m then m[p] else []) == OfPath(terms, p)
  {
    m := map[];
    for i := 0 to |terms|
      invariant forall p :: (if p in m then m[p] else []) == OfPath(terms[..i], p)
    {
      assert terms[..i + 1][..i] == terms[..i];
      assert forall t :: t in terms[..i + 1] ==> t in terms;
      var t := terms[i];
      var group := if t.path in m then m[t.path] else [];
      m := m[t.path := group + [t]];
    }
    assert terms[..|terms|] == terms;
  }

  // -- Dropping ----------------------------------------------------------------------------------

  /** `[r for r in records if r.path != path]`, for every path in `paths`. */
  function Without(records: seq<Record>, paths: set<string>): seq<Record> {
    if records == [] then []
    else if Place(records[0]) in paths then Without(records[1..], paths)
    else [records[0]] + Without(records[1..], paths)
  }

  lemma {:induction false} WithoutFacts(records: seq<Record>, paths: set<string>)
    ensures forall r :: r in Without(records, paths) <==> r in records && Place(r) !in paths
    ensures NoRepeats(records) ==> NoRepeats(Without(records, paths))
  {
    if records != [] {
      WithoutFacts(records[1..], paths);
      assert forall r :: r in records <==> r == records[0] || r in records[1..];
      assert NoRepeats(records) ==> records[0] !in records[1..];
    }
  }

  lemma {:induction false} WithoutTwice(records: seq<Record>, paths: set<string>, more: set<string>)
    ensures Without(Without(records, paths), more) == Without(records, paths + more)
  {
    if records != [] {
      WithoutTwice(records[1..], paths, more);
    }
  }

  lemma {:induction false} WithoutNone(records: seq<Record>)
    ensures Without(records, {}) == records
  {
    if records != [] {
      WithoutNone(records[1..]);
    }
  }

  // -- Triage ------------------------------------------------------------------------------------

  /** The files queued after looking at the paths in `seen`. */
  ghost predicate QueuedFrom(files: seq<File>, after: Corpus, seen: set<string>) {
    && (forall i, j :: 0 <= i < j < |files| ==> files[i].path != files[j].path)
    && (forall f :: f in files <==> f.path in seen && f.path in after && after[f.path] == f.data)
  }

  ghost predicate Triaged(verdicts: map<string, int>, after: Corpus, seen: set<string>) {
    verdicts.Keys == seen && forall p :: p in seen ==> verdicts[p] == if p in after then -1 else 2
  }

  lemma QueueOne(files: seq<File>, after: Corpus, seen: set<string>, path: string)
    requires QueuedFrom(files, after, seen) && path !in seen
    ensures path in after ==> QueuedFrom(files + [File(path, after[path])], after, seen + {path})
    ensures path !in after ==> QueuedFrom(files, after, seen + {path})
  {
    if path in after {
      var more := files + [File(path, after[path])];
      assert forall f :: f in more <==> f in files || f == File(path, after[path]);
      assert forall i :: 0 <= i < |files| ==> files[i] in files;
    }
  }

  lemma AllQueued(files: seq<File>, after: Corpus, seen: set<string>)
    requires QueuedFrom(files, after, seen) && after.Keys <= seen
    ensures Lists(files, after)
  {
    assert forall i :: 0 <= i < |files| ==> files[i] in files;
    assert forall p :: p in after ==> File(p, after[p]).path in seen;
  }

  /** Does a hint say the file is unchanged? */
  predicate HintHit(oldDocs: map<string, Record>, previousCrc: map<string, int>, current: map<string, Item>,
                    path: string)
    requires forall p :: p in oldDocs ==> oldDocs[p].Doc?
  {
    && path in oldDocs && path in current && |current[path].data| == oldDocs[path].size
    && path in previousCrc && current[path].crc == previousCrc[path]
  }

  /** One round of the first loop.  A hint decides nothing: both ways the current bytes are queued. */
  method TriageOne(oldDocs: map<string, Record>, previousCrc: map<string, int>, current: map<string, Item>,
                   path: string,
                   files: seq<File>, sofar: map<string, int>)
    returns (queued: seq<File>, verdicts: map<string, int>, failed: bool)
    requires forall p :: p in oldDocs ==> oldDocs[p].Doc?
    requires path in oldDocs || path in current
    ensures !failed
    ensures queued == if path in current then files + [File(path, current[path].data)] else files
    ensures verdicts == sofar[path := if path in current then -1 else 2]
  {
    queued, verdicts, failed := files, sofar, false;
    if HintHit(oldDocs, previousCrc, current, path) {
      queued := files + [File(path, current[path].data)];
      verdicts := sofar[path := -1];
    } else if path in oldDocs && path in current {
      queued := files + [File(path, current[path].data)];
      verdicts := sofar[path := -1];
    } else if path !in oldDocs && path in current {
      queued := files + [File(path, current[path].data)];
      verdicts := sofar[path := -1];
    } else {
      if path !in oldDocs || path in current {
        failed := true;
        return;
      }
      verdicts := sofar[path := ClassifyChange(true, oldDocs[path].digest, false, 0)];
      if verdicts[path] != 2 {
        failed := true;
        return;
      }
    }
  }

  method SortedPaths(s: set<string>) returns (paths: seq<string>)
    ensures (forall p :: p in paths <==> p in s) && NoRepeats(paths)
  {
    paths := SortStrings(s);
  }

  /** The first loop: every current path is queued, every path only in the old index is a removal, and
      the two bookkeeping failures are unreachable. */
  method Triage(oldDocs: map<string, Record>, previousCrc: map<string, int>, current: map<string, Item>,
                ghost after: Corpus)
    returns (queued: seq<File>, verdicts: map<string, int>, failed: bool)
    requires forall p :: p in oldDocs ==> oldDocs[p].Doc?
    requires current.Keys == after.Keys && forall p :: p in current ==> current[p].data == after[p]
    ensures !failed && Lists(queued, after) && Triaged(verdicts, after, oldDocs.Keys + after.Keys)
  {
    queued, verdicts, failed := [], map[], false;
    var paths := SortedPaths(oldDocs.Keys + current.Keys);
    ghost var seen: set<string> := {};
    for i := 0 to |paths|
      invariant !failed && QueuedFrom(queued, after, seen) && Triaged(verdicts, after, seen) && Seen(paths, i, seen)
    {
      ghost var files, sofar := queued, verdicts;
      SeeOne(paths, i, seen);
      queued, verdicts, failed := TriageOne(oldDocs, previousCrc, current, paths[i], queued, verdicts);
      JudgeOne(files, queued, sofar, verdicts, after, seen, paths[i]);
      seen := seen + {paths[i]};
    }
    assert forall p :: p in paths <==> p in oldDocs.Keys + after.Keys;
    SeenAll(paths, seen, oldDocs.Keys + after.Keys);
    AllQueued(queued, after, seen);
  }

  ghost predicate Seen(paths: seq<string>, i: nat, seen: set<string>) {
    && (forall j :: 0 <= j < |paths| && j < i ==> paths[j] in seen)
    && (forall p :: p in seen ==> exists j :: 0 <= j < |paths| && j < i && paths[j] == p)
  }

  lemma SeeOne(paths: seq<string>, i: nat, seen: set<string>)
    requires NoRepeats(paths) && i < |paths| && Seen(paths, i, seen)
    ensures paths[i] in paths && paths[i] !in seen && Seen(paths, i + 1, seen + {paths[i]})
  {
    forall p | p in seen ensures exists j :: 0 <= j < |paths| && j < i + 1 && paths[j] == p {
      var j :| 0 <= j < |paths| && j < i && paths[j] == p;
      assert j < i + 1;
    }
  }

  lemma SeenAll(paths: seq<string>, seen: set<string>, all: set<string>)
    requires Seen(paths, |paths|, seen) && forall p :: p in paths <==> p in all
    ensures seen == all
  {
  }

  lemma JudgeOne(files: seq<File>, queued: seq<File>, sofar: map<string, int>, verdicts: map<string, int>,
                 after: Corpus,
                 seen: set<string>, path: string)
    requires QueuedFrom(files, after, seen) && Triaged(sofar, after, seen) && path !in seen
    requires queued == if path in after then files + [File(path, after[path])] else files
    requires verdicts == sofar[path := if path in after then -1 else 2]
    ensures QueuedFrom(queued, after, seen + {path}) && Triaged(verdicts, after, seen + {path})
  {
    QueueOne(files, after, seen, path);
  }

  method CurrentItems(items: seq<Item>, ghost corpus: Corpus) returns (m: map<string, Item>)
    requires ItemsOf(items, corpus)
    ensures m.Keys == corpus.Keys && forall p :: p in m ==> m[p].path == p && m[p].data == corpus[p]
  {
    m := map[];
    ghost var files := AsFiles(items);
    for i := 0 to |items|
      invariant forall p :: p in m ==> p in corpus && m[p].path == p && m[p].data == corpus[p]
      invariant forall j :: 0 <= j < i ==> items[j].path in m
    {
      assert files[i] == File(items[i].path, items[i].data);
      m := m[items[i].path := items[i]];
    }
    forall p | p in corpus ensures p in m {
      var j :| 0 <= j < |files| && files[j] == File(p, corpus[p]);
      assert items[j].path == p;
    }
  }

  // -- Reuse -------------------------------------------------------------------------------------

  /** The stored documents taken over for the paths in `kept`. */
  ghost predicate ReusedDocs(docs: seq<Record>, oldDocs: map<string, Record>, kept: set<string>) {
    NoRepeats(docs) && forall r :: r in docs <==> r.Doc? && r.path in kept && r.path in oldDocs && r == oldDocs[r.path]
  }

  ghost predicate ReusedTerms(terms: seq<Record>, previous: seq<Record>, kept: set<string>) {
    NoRepeats(terms) && forall r :: r in terms <==> r.Term? && r.path in kept && r in previous
  }

  ghost predicate AllTerms(terms: seq<Record>) {
    forall t :: t in terms ==> t.Term?
  }

  lemma ReuseOne(docs: seq<Record>, oldDocs: map<string, Record>, terms: seq<Record>, previous: seq<Record>,
                 kept: set<string>, p: string)
    requires ReusedDocs(docs, oldDocs, kept) && ReusedTerms(terms, previous, kept) && p !in kept
    requires p in oldDocs && oldDocs[p].Doc? && oldDocs[p].path == p && AllTerms(previous) && NoRepeats(previous)
    ensures ReusedDocs(docs + [oldDocs[p]], oldDocs, kept + {p})
    ensures ReusedTerms(terms + OfPath(previous, p), previous, kept + {p})
  {
    OfPathFacts(previous, p);
    AppendDistinct(docs, [oldDocs[p]]);
    AppendDistinct(terms, OfPath(previous, p));
  }

  lemma AppendDistinct(a: seq<Record>, b: seq<Record>)
    requires NoRepeats(a) && NoRepeats(b) && forall r :: r in a ==> r !in b
    ensures NoRepeats(a + b) && forall r :: r in a + b <==> r in a || r in b
  {
    assert forall r :: r in a + b <==> r in a || r in b;
    assert forall i :: 0 <= i < |a| ==> a[i] in a;
    assert forall i :: 0 <= i < |b| ==> b[i] in b;
  }

  /** The change map while the fresh digests arrive. */
  ghost predicate Decided(k: Kernels, before: Corpus, after: Corpus, verdicts: map<string, int>, done: set<string>) {
    && verdicts.Keys == before.Keys + after.Keys
    && (forall p :: p in verdicts && (p in done || p !in after) ==> verdicts[p] == VerdictOf(k, before, after, p))
  }

  ghost predicate Done(docs: seq<Record>, i: nat, done: set<string>)
    requires Documents(docs)
  {
    && (forall j :: 0 <= j < |docs| && j < i ==> docs[j].path in done)
    && (forall p :: p in done ==> exists j :: 0 <= j < |docs| && j < i && docs[j].path == p)
  }

  lemma DoneOne(docs: seq<Record>, i: nat, done: set<string>)
    requires Documents(docs) && NoRepeats(docs) && i < |docs| && Done(docs, i, done)
    ensures docs[i].path !in done && Done(docs, i + 1, done + {docs[i].path})
  {
    assert forall j :: 0 <= j < |docs| ==> docs[j] in docs;
    assert forall j :: 0 <= j < i ==> docs[j].path != docs[i].path;
    forall p | p in done ensures exists j :: 0 <= j < |docs| && j < i + 1 && docs[j].path == p {
      var j :| 0 <= j < |docs| && j < i && docs[j].path == p;
      assert j < i + 1;
    }
  }

  ghost predicate Indexed(k: Kernels, oldDocs: map<string, Record>, before: Corpus) {
    oldDocs.Keys == before.Keys && forall p :: p in before ==> oldDocs[p] == DocOf(k, p, before[p])
  }

  ghost function Kept(k: Kernels, before: Corpus, after: Corpus, done: set<string>): set<string> {
    set p | p in done && KeptPath(k, before, after, p)
  }

  lemma KeepOne(k: Kernels, before: Corpus, after: Corpus, done: set<string>, p: string)
    requires p !in done
    ensures p !in Kept(k, before, after, done)
    ensures Kept(k, before, after, done + {p}) ==
      if KeptPath(k, before, after, p) then Kept(k, before, after, done) + {p} else Kept(k, before, after, done)
  {
  }

  /** One round of the second loop: the verdict for a freshly indexed document. */
  method JudgeFresh(k: Kernels, oldDocs: map<string, Record>, doc: Record, ghost before: Corpus, ghost after: Corpus)
    returns (code: nat, failed: bool)
    requires Indexed(k, oldDocs, before) && IsDoc(k, after, doc)
    ensures !failed && code == VerdictOf(k, before, after, doc.path)
    ensures code == 0 <==> KeptPath(k, before, after, doc.path)
  {
    failed := false;
    if doc.path !in oldDocs {
      code := ClassifyChange(false, 0, true, doc.digest);
      failed := code != 1;
    } else {
      code := ClassifyChange(true, oldDocs[doc.path].digest, true, doc.digest);
      failed := code != 0 && code != 3;
    }
  }

  datatype Merge = Merge(docs: seq<Record>, terms: seq<Record>, reusedDocs: seq<Record>, reusedTerms: seq<Record>)

  ghost predicate Merging(m: Merge, docs: seq<Record>, terms: seq<Record>, oldDocs: map<string, Record>,
                          previous: seq<Record>, kept: set<string>)
  {
    && m.docs == Without(docs, kept) && m.terms == Without(terms, kept)
    && ReusedDocs(m.reusedDocs, oldDocs, kept) && ReusedTerms(m.reusedTerms, previous, kept)
  }

  /** Taking over the stored records of one path. */
  method Reuse(m: Merge, doc: Record, stored: seq<Record>, ghost docs: seq<Record>, ghost terms: seq<Record>,
               ghost oldDocs: map<string, Record>, ghost previous: seq<Record>, ghost kept: set<string>)
    returns (r: Merge)
    requires Merging(m, docs, terms, oldDocs, previous, kept) && AllTerms(previous) && NoRepeats(previous)
    requires doc.Doc? && doc.path in oldDocs && oldDocs[doc.path] == doc && doc.path !in kept
    requires stored == OfPath(previous, doc.path)
    ensures Merging(r, docs, terms, oldDocs, previous, kept + {doc.path})
  {
    ReuseOne(m.reusedDocs, oldDocs, m.reusedTerms, previous, kept, doc.path);
    WithoutTwice(docs, kept, {doc.path});
    WithoutTwice(terms, kept, {doc.path});
    r := Merge(Without(m.docs, {doc.path}), Without(m.terms, {doc.path}), m.reusedDocs + [doc], m.reusedTerms + stored);
  }

  /** One round of the second loop. */
  method SettleOne(k: Kernels, oldDocs: map<string, Record>, oldTerms: map<string, seq<Record>>, doc: Record,
                   m0: Merge, sofar: map<string, int>,
                   ghost docs: seq<Record>, ghost terms: seq<Record>, ghost previous: seq<Record>,
                   ghost before: Corpus, ghost after: Corpus, ghost done: set<string>)
    returns (m: Merge, verdicts: map<string, int>, failed: bool)
    requires Indexed(k, oldDocs, before) && AllTerms(previous) && NoRepeats(previous)
    requires forall p :: (if p in oldTerms then oldTerms[p] else []) == OfPath(previous, p)
    requires IsDoc(k, after, doc) && doc.path !in done
    requires Decided(k, before, after, sofar, done)
    requires Merging(m0, docs, terms, oldDocs, previous, Kept(k, before, after, done))
    ensures !failed && Decided(k, before, after, verdicts, done + {doc.path})
    ensures Merging(m, docs, terms, oldDocs, previous, Kept(k, before, after, done + {doc.path}))
  {
    m := m0;
    KeepOne(k, before, after, done, doc.path);
    var code;
    code, failed := JudgeFresh(k, oldDocs, doc, before, after);
    if code == 0 {
      var stored := if doc.path in oldTerms then oldTerms[doc.path] else [];
      m := Reuse(m0, oldDocs[doc.path], stored, docs, terms, oldDocs, previous, Kept(k, before, after, done));
    }
    verdicts := sofar[doc.path := code];
    DecideOne(k, before, after, sofar, done, doc.path, code);
  }

  lemma DecideOne(k: Kernels, before: Corpus, after: Corpus, sofar: map<string, int>, done: set<string>, path: string,
                  code: nat)
    requires Decided(k, before, after, sofar, done) && path in after && code == VerdictOf(k, before, after, path)
    ensures Decided(k, before, after, sofar[path := code], done + {path})
  {
  }

  /** The second loop. */
  method Settle(k: Kernels, oldDocs: map<string, Record>, oldTerms: map<string, seq<Record>>, docs: seq<Record>,
                terms: seq<Record>,
                triaged: map<string, int>, ghost previous: seq<Record>, ghost before: Corpus, ghost after: Corpus)
    returns (m: Merge, verdicts: map<string, int>, failed: bool)
    requires Indexed(k, oldDocs, before) && AllTerms(previous) && NoRepeats(previous)
    requires forall p :: (if p in oldTerms then oldTerms[p] else []) == OfPath(previous, p)
    requires IsDocTable(k, after, docs) && Triaged(triaged, after, before.Keys + after.Keys)
    ensures !failed && Merging(m, docs, terms, oldDocs, previous, Kept(k, before, after, after.Keys))
    ensures Decided(k, before, after, verdicts, after.Keys)
  {
    m, verdicts, failed := Merge(docs, terms, [], []), triaged, false;
    ghost var done: set<string> := {};
    WithoutNone(docs);
    WithoutNone(terms);
    assert Kept(k, before, after, done) == {};
    TableDocuments(k, after, docs);
    for i := 0 to |docs|
      invariant !failed && Done(docs, i, done) && Decided(k, before, after, verdicts, done)
      invariant Merging(m, docs, terms, oldDocs, previous, Kept(k, before, after, done))
    {
      DoneOne(docs, i, done);
      assert docs[i] in docs;
      m, verdicts, failed := SettleOne(k, oldDocs, oldTerms, docs[i], m, verdicts, docs, terms, previous, before,
                                       after, done);
      done := done + {docs[i].path};
    }
    AllDone(k, after, docs, done);
  }

  lemma TableDocuments(k: Kernels, corpus: Corpus, docs: seq<Record>)
    requires IsDocTable(k, corpus, docs)
    ensures Documents(docs) && forall d :: d in docs ==> d.path in corpus
  {
  }

  lemma AllDone(k: Kernels, after: Corpus, docs: seq<Record>, done: set<string>)
    requires IsDocTable(k, after, docs) && Documents(docs) && Done(docs, |docs|, done)
    ensures done == after.Keys
  {
    forall p | p in after ensures p in done {
      assert IsDoc(k, after, DocOf(k, p, after[p])) && DocOf(k, p, after[p]) in docs;
    }
    forall p | p in done ensures p in after {
      var j :| 0 <= j < |docs| && docs[j].path == p;
      assert docs[j] in docs;
    }
  }

  // -- The result --------------------------------------------------------------------------------

  lemma MergedDocs(k: Kernels, before: Corpus, after: Corpus, m: Merge, docs: seq<Record>, terms: seq<Record>,
                   oldDocs: map<string, Record>, previous: seq<Record>)
    requires NoCollision(TreeDigests(k), before, after) && Indexed(k, oldDocs, before)
    requires IsDocTable(k, after, docs)
    requires Merging(m, docs, terms, oldDocs, previous, Kept(k, before, after, after.Keys))
    ensures IsDocTable(k, after, SortBy(KeyLe, m.reusedDocs + m.docs))
  {
    var kept := Kept(k, before, after, after.Keys);
    WithoutFacts(docs, kept);
    assert forall r :: r in m.docs ==> r in docs && IsDoc(k, after, r);
    AppendDistinct(m.reusedDocs, m.docs);
    forall r: Record | r.Doc? && r.path in kept ensures r in m.reusedDocs <==> IsDoc(k, after, r) {
      assert before[r.path] == after[r.path];
    }
    assert forall r :: r in m.reusedDocs + m.docs <==> IsDoc(k, after, r);
    SortedTable(m.reusedDocs + m.docs);
  }

  lemma MergedTerms(k: Kernels, before: Corpus, after: Corpus, m: Merge, docs: seq<Record>, terms: seq<Record>,
                    oldDocs: map<string, Record>, previous: seq<Record>)
    requires NoCollision(TreeDigests(k), before, after) && IsTermTable(k, before, previous)
    requires IsTermTable(k, after, terms)
    requires Merging(m, docs, terms, oldDocs, previous, Kept(k, before, after, after.Keys))
    ensures IsTermTable(k, after, SortBy(KeyLe, m.reusedTerms + m.terms))
  {
    var kept := Kept(k, before, after, after.Keys);
    WithoutFacts(terms, kept);
    assert forall r :: r in m.terms ==> r in terms && IsTerm(k, after, r);
    AppendDistinct(m.reusedTerms, m.terms);
    forall r: Record | r.Term? && r.path in kept ensures r in m.reusedTerms <==> IsTerm(k, after, r) {
      assert before[r.path] == after[r.path];
      assert r in previous <==> IsTerm(k, before, r);
    }
    assert forall r :: r in m.reusedTerms + m.terms <==> IsTerm(k, after, r);
    SortedTable(m.reusedTerms + m.terms);
  }

  /** `incremental_snapshot`.  For any hints at all: no bookkeeping failure, the change map covers old and
      current paths with the digest verdicts, and, unless two contents of one path share a digest, the tables
      are those of the current corpus. */
  method IncrementalSnapshot(k: Kernels, previousDocs: seq<Record>, previousTerms: seq<Record>,
                             previousCrc: map<string, int>,
                             items: seq<Item>, ghost before: Corpus, ghost after: Corpus)
    returns (docs: seq<Record>, terms: seq<Record>, verdicts: map<string, int>, failed: bool)
    requires IsDocTable(k, before, previousDocs) && IsTermTable(k, before, previousTerms)
    requires ItemsOf(items, after)
    ensures !failed
    ensures verdicts.Keys == before.Keys + after.Keys
    ensures forall p :: p in verdicts ==> verdicts[p] == VerdictOf(k, before, after, p)
    ensures NoCollision(TreeDigests(k), before, after) ==> IsDocTable(k, after, docs) && IsTermTable(k, after, terms)
    ensures NoCollision(TreeDigests(k), before, after) ==>
      forall p :: p in before && p in after ==> verdicts[p] == if before[p] == after[p] then 0 else 3
  {
    TableDocuments(k, before, previousDocs);
    var oldDocs := IndexDocs(previousDocs);
    TableIsIndexed(k, before, previousDocs, oldDocs);
    var oldTerms := GroupTerms(previousTerms);
    var current := CurrentItems(items, after);
    var queued, triaged;
    queued, triaged, failed := Triage(oldDocs, previousCrc, current, after);
    var freshDocs, freshTerms := BuildSnapshot(k, queued, after);
    var m;
    m, verdicts, failed := Settle(k, oldDocs, oldTerms, freshDocs, freshTerms, triaged, previousTerms, before, after);
    docs := SortBy(KeyLe, m.reusedDocs + m.docs);
    terms := SortBy(KeyLe, m.reusedTerms + m.terms);
    if NoCollision(TreeDigests(k), before, after) {
      MergedDocs(k, before, after, m, freshDocs, freshTerms, oldDocs, previousTerms);
      MergedTerms(k, before, after, m, freshDocs, freshTerms, oldDocs, previousTerms);
    }
  }

  lemma TableIsIndexed(k: Kernels, before: Corpus, docs: seq<Record>, oldDocs: map<string, Record>)
    requires IsDocTable(k, before, docs)
    requires forall d :: d in docs <==> d.Doc? && d.path in oldDocs && oldDocs[d.path] == d
    requires forall p :: p in oldDocs ==> oldDocs[p].Doc? && oldDocs[p].path == p
    ensures Indexed(k, oldDocs, before)
  {
    forall p | p in before ensures p in oldDocs && oldDocs[p] == DocOf(k, p, before[p]) {
      assert IsDoc(k, before, DocOf(k, p, before[p])) && DocOf(k, p, before[p]) in docs;
    }
    forall p | p in oldDocs ensures p in before {
      assert oldDocs[p] in docs;
    }
  }
}
