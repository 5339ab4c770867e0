/** What the index records about one file, and the record tables of a corpus. */
module FileBuild {
  import opened Collections
  import opened Sorting
  import opened Digest
  import opened Tokens
  import opened Canonical
  import opened CanonicalOrder

  /** The kernels a build depends on: byte step, pairwise combination, FNV basis, kind of a path. */
  datatype Kernels = Kernels(step: Step, combine: Combine, basis: int, kindOf: string -> nat)

  datatype File = File(path: string, data: Bytes)

  datatype TokenId = TokenId(token: Bytes, tid: int)

  datatype FileResult = FileResult(path: string, data: Bytes, kind: nat, stats: FileStats, terms: seq<TokenId>)

  type Corpus = map<string, Bytes>

  type ContentDigest = Bytes -> int

  /** The hypothesis under which digests may stand for contents: none of a path's two contents collide. */
  ghost predicate NoCollision(digest: ContentDigest, before: Corpus, after: Corpus) {
    forall p :: p in before && p in after && digest(before[p]) == digest(after[p]) ==> before[p] == after[p]
  }

  function DigestOf(k: Kernels, data: Bytes): int {
    TreeDigest(k.step, k.combine, k.basis, data)
  }

  /** The digest that an increment compares. */
  function TreeDigests(k: Kernels): ContentDigest {
    data => DigestOf(k, data)
  }

  /** `is_symbol_token`: 1..32 symbol characters, the first not a digit. */
  predicate ValidToken(tok: Bytes) {
    0 < |tok| <= TOKEN_MAX && !('0' <= tok[0] <= '9') && AllSymbols(tok)
  }

  function TokenDigest(k: Kernels, tok: Bytes): int {
    Fold(k.step, k.basis, tok)
  }

  /** The valid tokens of a list, each with its digest. */
  function Identified(k: Kernels, toks: seq<Bytes>): seq<TokenId> {
    if toks == [] then []
    else
      var init := Identified(k, toks[..|toks| - 1]);
      var tok := toks[|toks| - 1];
      if ValidToken(tok) then init + [TokenId(tok, TokenDigest(k, tok))] else init
  }

  ghost function TermsOf(k: Kernels, data: Bytes): seq<TokenId> {
    Identified(k, Capped(FileTokens(data)))
  }

  ghost function ResultOf(k: Kernels, f: File): FileResult {
    FileResult(f.path, f.data, k.kindOf(f.path), StatsOf(k.step, k.combine, k.basis, f.data), TermsOf(k, f.data))
  }

  // -- Sorting and capping the terms of one file change nothing ----------------------------------

  predicate TokenLe(a: TokenId, b: TokenId) {
    LexLe(a.token, b.token)
  }

  lemma {:induction false} IdentifiedFacts(k: Kernels, toks: seq<Bytes>)
    requires SortedBy(LexLe, toks)
    ensures |Identified(k, toks)| <= |toks| && SortedBy(TokenLe, Identified(k, toks))
    ensures forall t :: t in Identified(k, toks) ==> t.token in toks
  {
    if toks != [] {
      var n := |toks| - 1;
      IdentifiedFacts(k, toks[..n]);
      forall t | t in Identified(k, toks[..n]) ensures LexLe(t.token, toks[n]) {
        var i :| 0 <= i < n && toks[..n][i] == t.token;
        assert toks[i] == t.token;
      }
    }
  }

  lemma TermsAreCanonical(k: Kernels, data: Bytes)
    ensures var terms := TermsOf(k, data); SortBy(TokenLe, terms) == terms && |terms| <= TERMS_PER_FILE_CAP
  {
    var toks := Capped(FileTokens(data));
    assert SortedBy(LexLe, toks);
    IdentifiedFacts(k, toks);
    LexTotalOrder();
    SortOfSorted(TokenLe, TermsOf(k, data));
  }

  // -- Building one file sequentially ------------------------------------------------------------

  method Identify(k: Kernels, toks: seq<Bytes>) returns (terms: seq<TokenId>)
    ensures terms == Identified(k, toks)
  {
    terms := [];
    for i := 0 to |toks|
      invariant terms == Identified(k, toks[..i])
    {
      assert toks[..i + 1][..i] == toks[..i];
      if ValidToken(toks[i]) {
        terms := terms + [TokenId(toks[i], TokenDigest(k, toks[i]))];
      }
    }
    assert toks[..|toks|] == toks;
  }

  /** The sequential reference: every window scanned in turn, every token checked in turn. */
  method BuildFile(k: Kernels, f: File) returns (r: FileResult)
    ensures r == ResultOf(k, f)
  {
    var windows := Windows(f.data);
    var leaves: seq<WinDigest> := [];
    for i := 0 to |windows|
      invariant |leaves| == i && forall j :: 0 <= j < i ==> leaves[j] == LeafOf(k.step, k.basis, windows[j])
    {
      var leaf := LeafWindow(k.step, k.basis, windows[i], |windows[i]|, false);
      assert windows[i][..|windows[i]|] == windows[i];
      leaves := leaves + [leaf];
    }
    var stats := AssembleFile(k.step, k.combine, k.basis, f.data, leaves);
    var toks := SplitTokens(f.data);
    var terms := Identify(k, toks);
    r := FileResult(f.path, f.data, k.kindOf(f.path), stats, terms);
  }

  ghost function ResultsOf(k: Kernels, files: seq<File>): (r: seq<FileResult>)
    ensures |r| == |files|
  {
    if files == [] then [] else ResultsOf(k, files[..|files| - 1]) + [ResultOf(k, files[|files| - 1])]
  }

  lemma {:induction false} ResultAt(k: Kernels, files: seq<File>, i: nat)
    requires i < |files|
    ensures ResultsOf(k, files)[i] == ResultOf(k, files[i])
  {
    if i < |files| - 1 {
      ResultAt(k, files[..|files| - 1], i);
    }
  }

  method BuildFiles(k: Kernels, files: seq<File>) returns (results: seq<FileResult>)
    ensures results == ResultsOf(k, files)
  {
    results := [];
    for i := 0 to |files|
      invariant results == ResultsOf(k, files[..i])
    {
      assert files[..i + 1][..i] == files[..i];
      var r := BuildFile(k, files[i]);
      results := results + [r];
    }
    assert files[..|files|] == files;
  }

  // -- Tables ------------------------------------------------------------------------------------

  ghost function DocOf(k: Kernels, path: string, data: Bytes): Record {
    var stats := StatsOf(k.step, k.combine, k.basis, data);
    Doc(k.kindOf(path), path, stats.digest, |data|, stats.words, stats.lines)
  }

  ghost predicate IsDoc(k: Kernels, corpus: Corpus, r: Record) {
    r.Doc? && r.path in corpus && r == DocOf(k, r.path, corpus[r.path])
  }

  ghost predicate IsTerm(k: Kernels, corpus: Corpus, r: Record) {
    && r.Term? && r.path in corpus && r.seqno < |TermsOf(k, corpus[r.path])|
    && TermsOf(k, corpus[r.path])[r.seqno] == TokenId(r.token, r.tid)
  }

  /** The documents of a corpus: sorted, none twice, exactly one per file. */
  ghost predicate IsDocTable(k: Kernels, corpus: Corpus, docs: seq<Record>) {
    SortedBy(KeyLe, docs) && NoRepeats(docs) && forall r :: r in docs <==> IsDoc(k, corpus, r)
  }

  ghost predicate IsTermTable(k: Kernels, corpus: Corpus, terms: seq<Record>) {
    SortedBy(KeyLe, terms) && NoRepeats(terms) && forall r :: r in terms <==> IsTerm(k, corpus, r)
  }

  /** A corpus has one table of documents and one of terms. */
  lemma TablesAreUnique(k: Kernels, corpus: Corpus, docs: seq<Record>, docs': seq<Record>, terms: seq<Record>,
                        terms': seq<Record>)
    requires IsDocTable(k, corpus, docs) && IsDocTable(k, corpus, docs')
    requires IsTermTable(k, corpus, terms) && IsTermTable(k, corpus, terms')
    ensures docs == docs' && terms == terms'
  {
    forall x, y | x in docs && y in docs && KeyLe(x, y) && KeyLe(y, x) ensures x == y {
      assert IsDoc(k, corpus, x) && IsDoc(k, corpus, y);
      SameKey(x, y);
    }
    SortedMembersUnique(docs, docs');
    forall x, y | x in terms && y in terms && KeyLe(x, y) && KeyLe(y, x) ensures x == y {
      assert IsTerm(k, corpus, x) && IsTerm(k, corpus, y);
      SameKey(x, y);
    }
    SortedMembersUnique(terms, terms');
  }

  // -- Records from results ------------------------------------------------------------------------

  /** `files` lists the corpus, every path once, in any order. */
  ghost predicate Lists(files: seq<File>, corpus: Corpus) {
    && (forall i, j :: 0 <= i < j < |files| ==> files[i].path != files[j].path)
    && (forall i :: 0 <= i < |files| ==> files[i].path in corpus && corpus[files[i].path] == files[i].data)
    && (forall p :: p in corpus ==> File(p, corpus[p]) in files)
  }

  function TermRecords(path: string, terms: seq<TokenId>): seq<Record> {
    seq(|terms|, i requires 0 <= i < |terms| => Term(path, terms[i].token, terms[i].tid, i))
  }

  /** Sorting keeps members and the absence of repetitions. */
  lemma SortedTable(s: seq<Record>)
    requires NoRepeats(s)
    ensures var t := SortBy(KeyLe, s);
      SortedBy(KeyLe, t) && NoRepeats(t) && forall r :: r in t <==> r in s
  {
    var t := SortBy(KeyLe, s);
    var members := set r | r in s;
    KeyOrder();
    SortBySorted(KeyLe, s);
    SortByContent(KeyLe, s);
    SameMembers(t, s);
    NoRepeatsMultiset(s, members);
    forall i, j | 0 <= i < j < |t| ensures t[i] != t[j] {
      NoDuplicates(t, members, i, j);
    }
  }

  ghost predicate AmongFirst(files: seq<File>, n: nat, path: string) {
    exists i :: 0 <= i < n && i < |files| && files[i].path == path
  }

  /** The record lists collected from the first `i` results. */
  ghost predicate Collected(k: Kernels, files: seq<File>, corpus: Corpus, i: nat, docs: seq<Record>,
                            terms: seq<Record>)
  {
    && NoRepeats(docs) && NoRepeats(terms)
    && (forall r :: r in docs <==> IsDoc(k, corpus, r) && AmongFirst(files, i, r.path))
    && (forall r :: r in terms <==> IsTerm(k, corpus, r) && AmongFirst(files, i, r.path))
  }

  /** Whatever order the results come in, the tables are those of the corpus. */
  method ResultsToRecords(k: Kernels, ghost files: seq<File>, results: seq<FileResult>, ghost corpus: Corpus)
    returns (docs: seq<Record>, terms: seq<Record>)
    requires Lists(files, corpus) && results == ResultsOf(k, files)
    ensures IsDocTable(k, corpus, docs) && IsTermTable(k, corpus, terms)
  {
    docs, terms := [], [];
    for i := 0 to |results|
      invariant Collected(k, files, corpus, i, docs, terms)
    {
      var res := results[i];
      ghost var docs0, terms0 := docs, terms;
      docs := docs + [Doc(res.kind, res.path, res.stats.digest, |res.data|, res.stats.words, res.stats.lines)];
      terms := terms + TermRecords(res.path, res.terms);
      CollectOne(k, files, corpus, i, docs0, docs, terms0, terms);
    }
    Sorted(k, files, corpus, docs, terms);
    docs := SortBy(KeyLe, docs);
    terms := SortBy(KeyLe, terms);
  }

  lemma Sorted(k: Kernels, files: seq<File>, corpus: Corpus, docs: seq<Record>, terms: seq<Record>)
    requires Lists(files, corpus) && Collected(k, files, corpus, |files|, docs, terms)
    ensures IsDocTable(k, corpus, SortBy(KeyLe, docs)) && IsTermTable(k, corpus, SortBy(KeyLe, terms))
  {
    SortedTable(docs);
    SortedTable(terms);
    AllAmongFirst(files, corpus);
  }

  lemma CollectOne(k: Kernels, files: seq<File>, corpus: Corpus, i: nat, docs0: seq<Record>, docs: seq<Record>,
                   terms0: seq<Record>, terms: seq<Record>)
    requires Lists(files, corpus) && i < |files| && Collected(k, files, corpus, i, docs0, terms0)
    requires var res := ResultsOf(k, files)[i];
      && docs == docs0 + [Doc(res.kind, res.path, res.stats.digest, |res.data|, res.stats.words, res.stats.lines)]
      && terms == terms0 + TermRecords(res.path, res.terms)
    ensures Collected(k, files, corpus, i + 1, docs, terms)
  {
    ResultAt(k, files, i);
    AppendDoc(k, files, corpus, i, docs0, docs);
    AppendTerms(k, files, corpus, i, terms0, terms);
  }

  lemma NextPath(files: seq<File>, i: nat)
    requires i < |files|
    ensures forall p :: AmongFirst(files, i + 1, p) <==> AmongFirst(files, i, p) || p == files[i].path
  {
    forall p ensures AmongFirst(files, i + 1, p) <==> AmongFirst(files, i, p) || p == files[i].path {
      if AmongFirst(files, i, p) {
        var j :| 0 <= j < i && j < |files| && files[j].path == p;
        assert files[j].path == p && j < i + 1;
      }
    }
  }

  lemma AllAmongFirst(files: seq<File>, corpus: Corpus)
    requires Lists(files, corpus)
    ensures forall p :: p in corpus ==> AmongFirst(files, |files|, p)
  {
    forall p | p in corpus ensures AmongFirst(files, |files|, p) {
      assert File(p, corpus[p]) in files;
    }
  }

  lemma AppendDoc(k: Kernels, files: seq<File>, corpus: Corpus, i: nat, docs0: seq<Record>, docs: seq<Record>)
    requires Lists(files, corpus) && i < |files| && NoRepeats(docs0)
    requires forall r :: r in docs0 <==> IsDoc(k, corpus, r) && AmongFirst(files, i, r.path)
    requires docs == docs0 + [DocOf(k, files[i].path, files[i].data)]
    ensures NoRepeats(docs)
    ensures forall r :: r in docs <==> IsDoc(k, corpus, r) && AmongFirst(files, i + 1, r.path)
  {
    NextPath(files, i);
    var d := DocOf(k, files[i].path, files[i].data);
    assert IsDoc(k, corpus, d) && d !in docs0;
    assert forall r :: r in docs <==> r in docs0 || r == d;
  }

  lemma AppendTerms(k: Kernels, files: seq<File>, corpus: Corpus, i: nat, terms0: seq<Record>, terms: seq<Record>)
    requires Lists(files, corpus) && i < |files| && NoRepeats(terms0)
    requires forall r :: r in terms0 <==> IsTerm(k, corpus, r) && AmongFirst(files, i, r.path)
    requires terms == terms0 + TermRecords(files[i].path, TermsOf(k, files[i].data))
    ensures NoRepeats(terms)
    ensures forall r :: r in terms <==> IsTerm(k, corpus, r) && AmongFirst(files, i + 1, r.path)
  {
    NextPath(files, i);
    var p, ids := files[i].path, TermsOf(k, files[i].data);
    var more := TermRecords(p, ids);
    forall r ensures r in more <==> IsTerm(k, corpus, r) && r.path == p {
      if IsTerm(k, corpus, r) && r.path == p { assert more[r.seqno] == r; }
    }
    assert forall a, b :: 0 <= a < b < |more| ==> more[a].seqno != more[b].seqno;
    assert forall r :: r in terms0 ==> r !in more;
    assert forall r :: r in terms <==> r in terms0 || r in more;
  }

  /** A full build, with the files taken in any order. */
  method BuildSnapshot(k: Kernels, files: seq<File>, ghost corpus: Corpus)
    returns (docs: seq<Record>, terms: seq<Record>)
    requires Lists(files, corpus)
    ensures IsDocTable(k, corpus, docs) && IsTermTable(k, corpus, terms)
  {
    var results := BuildFiles(k, files);
    docs, terms := ResultsToRecords(k, files, results, corpus);
  }
}
