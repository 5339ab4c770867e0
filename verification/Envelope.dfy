/** The stored form of a snapshot: what publish accepts, load accepts, and what load accepts was hashed. */
module Envelope {
  import opened Options
  import opened Sorting
  import opened Canonical
  import opened CanonicalOrder
  import opened LineInjectivity

  type Hash = string -> string

  datatype Snapshot = Snapshot(
    id: string, generation: nat, hash: string, fingerprint: string, v1: seq<Record>, rich: seq<Record>)

  /** Documents and terms on one side, rich tables on the other, heading levels as their constructor demands. */
  ghost predicate Constructed(s: Snapshot) {
    && (forall r :: r in s.v1 ==> r.Doc? || r.Term?)
    && (forall r :: r in s.rich ==> IsRich(r) && (r.Heading? ==> 1 <= r.level <= 6))
  }

  /** `has_rich` decides the version of the text; empty rich tables degrade to v1. */
  function VersionOf(s: Snapshot): Version {
    if s.rich == [] then V1 else V2
  }

  function SortedRecords(s: Snapshot): seq<Record> {
    if s.rich == [] then SortBy(KeyLe, s.v1) else SortedAll(s.v1, s.rich)
  }

  function TextOfSnapshot(s: Snapshot): string {
    CanonicalText(VersionOf(s), s.id, SortedRecords(s))
  }

  // -- JSON rows: digests as sixteen hexadecimal digits -------------------------------------------

  datatype Row =
    | DocRow(kind: nat, path: string, digest: string, size: nat, words: nat, lines: nat, crc: int)
    | TermRow(path: string, token: string, tid: string, seqno: nat)
    | SymRow(path: string, sym: SymKind, name: string, ndigest: string, seqno: nat)
    | HeadingRow(path: string, level: nat, seqno: nat, tdigest: string, title: string)
    | RelRow(src: string, rel: RelKind, dst: string, seqno: nat)
    | PressRow(path: string, pid: string, seqno: nat)

  datatype Payload = Payload(
    format: Version, id: string, generation: nat, hash: string, fingerprint: string,
    v1: seq<Row>, rich: seq<Row>, established: map<string, int>)

  function RowOf(crc: map<string, int>, r: Record): Row {
    match r
    case Doc(kind, path, digest, size, words, lines) =>
      DocRow(kind, path, Hex16(digest), size, words, lines, if path in crc then crc[path] else 0)
    case Term(path, token, tid, seqno) => TermRow(path, token, Hex16(tid), seqno)
    case SymRec(path, sym, name, ndigest, seqno) => SymRow(path, sym, name, Hex16(ndigest), seqno)
    case Heading(path, level, seqno, tdigest, title) => HeadingRow(path, level, seqno, Hex16(tdigest), title)
    case Rel(src, rel, dst, seqno) => RelRow(src, rel, dst, seqno)
    case Press(path, pid, seqno) => PressRow(path, pid, seqno)
  }

  function RecordOf(row: Row): Record {
    match row
    case DocRow(kind, path, digest, size, words, lines, _) => Doc(kind, path, Unhex(digest), size, words, lines)
    case TermRow(path, token, tid, seqno) => Term(path, token, Unhex(tid), seqno)
    case SymRow(path, sym, name, ndigest, seqno) => SymRec(path, sym, name, Unhex(ndigest), seqno)
    case HeadingRow(path, level, seqno, tdigest, title) => Heading(path, level, seqno, Unhex(tdigest), title)
    case RelRow(src, rel, dst, seqno) => Rel(src, rel, dst, seqno)
    case PressRow(path, pid, seqno) => Press(path, pid, seqno)
  }

  function RowsOf(crc: map<string, int>, s: seq<Record>): seq<Row> {
    Each(r => RowOf(crc, r), s)
  }

  /** The constructors' own checks. */
  predicate LevelsOk(rows: seq<Row>) {
    forall i :: 0 <= i < |rows| ==> (rows[i].HeadingRow? ==> 1 <= rows[i].level <= 6)
  }

  // -- Publish and load ---------------------------------------------------------------------------

  datatype PublishResult = Stored(payload: Payload) | BytesMismatch | CandidateHashMismatch | NotInitial | NotNext

  datatype LoadResult =
    | Loaded(snap: Snapshot, established: map<string, int>, hints: map<string, int>)
    | Malformed | WrongGeneration | StoredHashMismatch

  /** What is stored beside the snapshot: the established map and the content hints. */
  datatype Extra = Extra(established: map<string, int>, crc: map<string, int>)

  function PayloadOf(s: Snapshot, extra: Extra): Payload {
    Payload(VersionOf(s), s.id, s.generation, s.hash, s.fingerprint,
            RowsOf(extra.crc, s.v1), RowsOf(extra.crc, s.rich), extra.established)
  }

  /** The validation before a generation file is staged, in the order of its checks. */
  function Publish(hash: Hash, s: Snapshot, text: string, base: Option<nat>, extra: Extra): PublishResult {
    if TextOfSnapshot(s) != text then BytesMismatch
    else if hash(text) != s.hash then CandidateHashMismatch
    else if base.None? && s.generation != 0 then NotInitial
    else if base.Some? && s.generation != base.value + 1 then NotNext
    else Stored(PayloadOf(s, extra))
  }

  function SnapshotOf(p: Payload): Snapshot {
    Snapshot(p.id, p.generation, p.hash, p.fingerprint,
             Each(RecordOf, p.v1), if p.format.V1? then [] else Each(RecordOf, p.rich))
  }

  /** The hint map that `load` rebuilds from the stored documents. */
  function Hints(rows: seq<Row>): map<string, int> {
    if rows == [] then map[]
    else
      var last := rows[|rows| - 1];
      if last.DocRow? then Hints(rows[..|rows| - 1])[last.path := last.crc] else Hints(rows[..|rows| - 1])
  }

  /** `load` and `_validate_stored` after the JSON text has been parsed. */
  function Load(hash: Hash, p: Payload, generation: nat): LoadResult {
    if p.format.V2? && !LevelsOk(p.rich) then Malformed
    else if p.generation != generation then WrongGeneration
    else if hash(TextOfSnapshot(SnapshotOf(p))) != p.hash then StoredHashMismatch
    else Loaded(SnapshotOf(p), p.established, Hints(p.v1))
  }

  // -- Digests are stored modulo 2^64 ---------------------------------------------------------------

  function Masked(r: Record): Record {
    match r
    case Doc(kind, path, digest, size, words, lines) => Doc(kind, path, digest % TWO64, size, words, lines)
    case Term(path, token, tid, seqno) => Term(path, token, tid % TWO64, seqno)
    case SymRec(path, sym, name, ndigest, seqno) => SymRec(path, sym, name, ndigest % TWO64, seqno)
    case Heading(path, level, seqno, tdigest, title) => Heading(path, level, seqno, tdigest % TWO64, title)
    case Rel(_, _, _, _) => r
    case Press(_, _, _) => r
  }

  predicate InRange(r: Record) {
    match r
    case Doc(_, _, digest, _, _, _) => Digest64(digest)
    case Term(_, _, tid, _) => Digest64(tid)
    case SymRec(_, _, _, ndigest, _) => Digest64(ndigest)
    case Heading(_, _, _, tdigest, _) => Digest64(tdigest)
    case Rel(_, _, _, _) => true
    case Press(_, _, _) => true
  }

  lemma DigestRoundTrip(v: int)
    ensures Unhex(Hex16(v)) == v % TWO64 && Hex16(v % TWO64) == Hex16(v)
    ensures v % TWO64 == v <==> Digest64(v)
  {
    UnhexHex16(v);
    Remainder(v, TWO64);
    SameDigits(v % TWO64, v);
  }

  lemma SameDigits(a: int, b: int)
    requires a % TWO64 == b % TWO64
    ensures Hex16(a) == Hex16(b)
  {
  }

  function DigestIn(r: Record): int {
    match r
    case Doc(_, _, digest, _, _, _) => digest
    case Term(_, _, tid, _) => tid
    case SymRec(_, _, _, ndigest, _) => ndigest
    case Heading(_, _, _, tdigest, _) => tdigest
    case Rel(_, _, _, _) => 0
    case Press(_, _, _) => 0
  }

  lemma RowRoundTrip(crc: map<string, int>, r: Record)
    ensures RecordOf(RowOf(crc, r)) == Masked(r)
    ensures Masked(r) == r <==> InRange(r)
  {
    DigestRoundTrip(DigestIn(r));
  }

  lemma RowsRoundTrip(crc: map<string, int>, s: seq<Record>)
    ensures Each(RecordOf, RowsOf(crc, s)) == Each(Masked, s)
    ensures Each(Masked, s) == s <==> forall i :: 0 <= i < |s| ==> InRange(s[i])
  {
    forall i | 0 <= i < |s|
      ensures RecordOf(RowOf(crc, s[i])) == Masked(s[i]) && (Masked(s[i]) == s[i] <==> InRange(s[i]))
    {
      RowRoundTrip(crc, s[i]);
    }
    var rows := RowsOf(crc, s);
    assert forall i :: 0 <= i < |s| ==> rows[i] == RowOf(crc, s[i]);
    assert forall i :: 0 <= i < |s| ==> Each(Masked, s)[i] == Masked(s[i]);
  }

  /** Masking changes neither the printed line ... */
  lemma MaskedLine(r: Record)
    ensures CanonLine(Masked(r)) == CanonLine(r)
  {
    DigestRoundTrip(DigestIn(r));
    assert Tag(Masked(r)) == Tag(r);
    assert Body(Masked(r)) == Body(r);
  }

  /** ... nor the sort key. */
  lemma MaskedKey(r: Record, q: Record)
    ensures KeyLe(Masked(r), Masked(q)) == KeyLe(r, q)
  {
    assert Rank(Masked(r)) == Rank(r) && Place(Masked(r)) == Place(r) && Seqno(Masked(r)) == Seqno(r);
    assert Rank(Masked(q)) == Rank(q) && Place(Masked(q)) == Place(q) && Seqno(Masked(q)) == Seqno(q);
  }

  lemma {:induction false} InsertMasked(r: Record, s: seq<Record>)
    ensures InsertBy(KeyLe, Masked(r), Each(Masked, s)) == Each(Masked, InsertBy(KeyLe, r, s))
  {
    if s != [] {
      MaskedKey(r, s[0]);
      assert Each(Masked, s)[1..] == Each(Masked, s[1..]);
      if !KeyLe(r, s[0]) { InsertMasked(r, s[1..]); }
    }
  }

  lemma {:induction false} SortMasked(s: seq<Record>)
    ensures SortBy(KeyLe, Each(Masked, s)) == Each(Masked, SortBy(KeyLe, s))
  {
    if s != [] {
      SortMasked(s[1..]);
      assert Each(Masked, s)[1..] == Each(Masked, s[1..]);
      InsertMasked(s[0], SortBy(KeyLe, s[1..]));
    }
  }

  lemma LinesMasked(s: seq<Record>)
    ensures Lines(Each(Masked, s)) == Lines(s)
  {
    forall i | 0 <= i < |s| ensures Lines(Each(Masked, s))[i] == Lines(s)[i] {
      MaskedLine(s[i]);
    }
  }

  function MaskedSnapshot(s: Snapshot): Snapshot {
    s.(v1 := Each(Masked, s.v1), rich := Each(Masked, s.rich))
  }

  lemma TextMasked(s: Snapshot)
    ensures TextOfSnapshot(MaskedSnapshot(s)) == TextOfSnapshot(s)
  {
    var m := MaskedSnapshot(s);
    SortMasked(s.v1);
    SortMasked(s.rich);
    EachConcat(Masked, SortBy(KeyLe, s.v1), SortBy(KeyLe, s.rich));
    SortMasked(SortBy(KeyLe, s.v1) + SortBy(KeyLe, s.rich));
    assert |m.rich| == |s.rich|;
    assert SortedRecords(m) == Each(Masked, SortedRecords(s));
    LinesMasked(SortedRecords(s));
  }

  /** Everything publish accepts, load accepts: it returns the same id, generation, hash, fingerprint and
      established map, the hints of the documents, and the records, which come back identical exactly when every
      digest fits 64 bits. */
  lemma PublishedLoads(hash: Hash, s: Snapshot, text: string, base: Option<nat>, extra: Extra)
    requires Constructed(s) && Publish(hash, s, text, base, extra).Stored?
    ensures Load(hash, Publish(hash, s, text, base, extra).payload, s.generation)
         == Loaded(MaskedSnapshot(s), extra.established, DocHints(extra.crc, s.v1))
    ensures MaskedSnapshot(s) == s <==>
      (forall i :: 0 <= i < |s.v1| ==> InRange(s.v1[i])) && (forall i :: 0 <= i < |s.rich| ==> InRange(s.rich[i]))
  {
    var p := Publish(hash, s, text, base, extra).payload;
    RowsRoundTrip(extra.crc, s.v1);
    RowsRoundTrip(extra.crc, s.rich);
    forall i | 0 <= i < |p.rich| && p.rich[i].HeadingRow? ensures 1 <= p.rich[i].level <= 6 {
      assert s.rich[i] in s.rich && p.rich[i] == RowOf(extra.crc, s.rich[i]);
    }
    assert SnapshotOf(p) == MaskedSnapshot(s);
    TextMasked(s);
    HintsSurvive(extra.crc, s.v1);
  }

  function DocPaths(v1: seq<Record>): set<string> {
    set d | d in v1 && d.Doc? :: d.path
  }

  /** The published hint of every document, 0 for a document without one. */
  function DocHints(crc: map<string, int>, v1: seq<Record>): map<string, int> {
    map p | p in DocPaths(v1) :: if p in crc then crc[p] else 0
  }

  /** Hints survive the round trip for exactly the documents of the snapshot. */
  lemma {:induction false} HintsSurvive(crc: map<string, int>, v1: seq<Record>)
    ensures Hints(RowsOf(crc, v1)) == DocHints(crc, v1)
  {
    if v1 != [] {
      var init, last := v1[..|v1| - 1], v1[|v1| - 1];
      HintsSurvive(crc, init);
      var rows := RowsOf(crc, v1);
      assert rows[..|rows| - 1] == RowsOf(crc, init) && rows[|rows| - 1] == RowOf(crc, last);
      assert v1 == init + [last];
      assert DocPaths(v1) == DocPaths(init) + if last.Doc? then {last.path} else {};
    }
  }

  // -- What load returns was published ----------------------------------------------------------------

  /** Single-line id, well-formed records, headings numbered below `limit`. */
  ghost predicate Readable(s: Snapshot, limit: nat) {
    SingleLine(s.id) && AllAdmitted(SortedRecords(s), limit)
  }

  /** No two records in the same place have confusable paths. */
  ghost predicate Comparable(a: seq<Record>, b: seq<Record>, limit: nat) {
    forall i :: 0 <= i < |a| && i < |b| ==> Distinguishable(a[i], b[i], limit)
  }

  /** Load returns a payload exactly when its levels, its number and its hash are right, and then as it stands: the
      fields, and the rich records only under the v2 format. */
  lemma LoadsIff(hash: Hash, p: Payload, generation: nat)
    ensures Load(hash, p, generation).Loaded? <==>
      && (p.format == V2 ==> forall i :: 0 <= i < |p.rich| && p.rich[i].HeadingRow? ==> 1 <= p.rich[i].level <= 6)
      && p.generation == generation && hash(TextOfSnapshot(SnapshotOf(p))) == p.hash
    ensures Load(hash, p, generation).Loaded? ==>
      var r := Load(hash, p, generation);
      && r.snap.id == p.id && r.snap.generation == generation && r.snap.hash == p.hash
      && r.snap.fingerprint == p.fingerprint && r.established == p.established
      && |r.snap.v1| == |p.v1| && |r.snap.rich| == (if p.format == V1 then 0 else |p.rich|)
  {
  }

  /** Publish stores a payload exactly when the text, the hash and the number are right. */
  lemma StoresIff(hash: Hash, s: Snapshot, text: string, base: Option<nat>, extra: Extra)
    ensures Publish(hash, s, text, base, extra).Stored? <==>
      && text == TextOfSnapshot(s) && s.hash == hash(text)
      && s.generation == (match base case None => 0 case Some(b) => b + 1)
  {
  }

  /** Load fails closed: whatever payload sits under the hash of `s`, if load returns it then, unless the two
      texts collide, it is the published content - same version, id and sorted records. */
  lemma LoadReturnsOnlyWhatWasHashed(hash: Hash, s: Snapshot, p: Payload, generation: nat, limit: nat)
    requires p.hash == hash(TextOfSnapshot(s)) && Load(hash, p, generation).Loaded?
    requires Readable(s, limit) && Readable(SnapshotOf(p), limit)
    requires Comparable(SortedRecords(SnapshotOf(p)), SortedRecords(s), limit)
    requires hash(TextOfSnapshot(SnapshotOf(p))) == hash(TextOfSnapshot(s))
         ==> TextOfSnapshot(SnapshotOf(p)) == TextOfSnapshot(s)
    ensures var t := Load(hash, p, generation).snap;
      t.generation == generation && t.id == s.id && VersionOf(t) == VersionOf(s) && SortedRecords(t) == SortedRecords(s)
  {
    var t := SnapshotOf(p);
    CanonicalInjective(VersionOf(t), t.id, SortedRecords(t), VersionOf(s), s.id, SortedRecords(s), limit);
  }
}
