/** The derived relation index: replaying commits, rebuilding, and freshness. */
module StoreFeed {
  import opened Options
  import opened Sorting
  import opened FeedRecords

  datatype Commit = Commit(feed: Feed, relations: seq<Relation>, provenance: seq<Provenance>)

  predicate Validates(c: Commit) {
    && c.feed.relationCount == |c.relations|
    && c.feed.provenanceCount == |c.provenance|
    && (forall r :: r in c.relations ==> r.generation == c.feed.generation)
  }

  /** The state of an index as a value. */
  datatype State = State(relations: map<Identity, Relation>, store: nat, through: nat)

  const FRESH := State(map[], 0, 0)

  function Put(relations: map<Identity, Relation>, added: seq<Relation>): map<Identity, Relation> {
    if added == [] then relations
    else Put(relations, added[..|added| - 1])[IdentityOf(added[|added| - 1]) := added[|added| - 1]]
  }

  function Max(a: nat, b: nat): nat {
    if a < b then b else a
  }

  /** `_accept`: None is the rejection. */
  function Accepted(s: State, c: Commit, replace: bool): Option<State> {
    if !Validates(c) || c.feed.generation < s.through then None
    else
      var kept := if replace then map[] else s.relations;
      Some(State(Put(kept, c.relations), Max(s.store, c.feed.generation), c.feed.generation))
  }

  /** `apply`: the generation must advance. */
  function Applied(s: State, c: Commit): Option<State> {
    if c.feed.generation <= s.through then None else Accepted(s, c, false)
  }

  /** `observe_store_generation`: the store's generation never moves backwards. */
  function Observed(s: State, generation: nat): Option<State> {
    if generation < s.store then None else Some(s.(store := generation))
  }

  function ApplyAll(s: State, commits: seq<Commit>): Option<State> {
    if commits == [] then Some(s)
    else
      var init := ApplyAll(s, commits[..|commits| - 1]);
      if init.None? then None else Applied(init.value, commits[|commits| - 1])
  }

  function AcceptAll(commits: seq<Commit>): Option<State> {
    if commits == [] then Some(FRESH)
    else
      var init := AcceptAll(commits[..|commits| - 1]);
      if init.None? then None else Accepted(init.value, commits[|commits| - 1], |commits| == 1)
  }

  predicate ByGeneration(a: Commit, b: Commit) {
    a.feed.generation <= b.feed.generation
  }

  function Rebuilt(commits: seq<Commit>): Option<State> {
    AcceptAll(SortBy(ByGeneration, commits))
  }

  /** A commit is taken exactly when both counts are right, its relations carry its generation, and that is no older -
      to apply, newer - than the last one taken. */
  lemma TakenIff(s: State, c: Commit, replace: bool)
    ensures Accepted(s, c, replace).Some? <==>
      && c.feed.relationCount == |c.relations| && c.feed.provenanceCount == |c.provenance|
      && (forall i :: 0 <= i < |c.relations| ==> c.relations[i].generation == c.feed.generation)
      && c.feed.generation >= s.through
    ensures Applied(s, c).Some? <==> Accepted(s, c, false).Some? && c.feed.generation > s.through
  {
  }

  datatype Freshness = Complete | Stale | FutureInvalid

  /** The disposable projection, updated in place. */
  class DerivedStoreIndex {
    var relations: map<Identity, Relation>
    var storeGeneration: nat
    var indexThroughGeneration: nat

    function Value(): State
      reads this
    {
      State(relations, storeGeneration, indexThroughGeneration)
    }

    ghost predicate Valid()
      reads this
    {
      indexThroughGeneration <= storeGeneration && Keyed(relations)
    }

    constructor ()
      ensures Valid() && Value() == FRESH
    {
      relations, storeGeneration, indexThroughGeneration := map[], 0, 0;
    }

    method Accept(c: Commit, replace: bool) returns (ok: bool)
      requires Valid()
      modifies this
      ensures Valid()
      ensures match Accepted(old(Value()), c, replace)
              case Some(next) => ok && Value() == next
              case None => !ok && Value() == old(Value())
      ensures ok ==> indexThroughGeneration == c.feed.generation
      ensures ok ==> storeGeneration >= old(storeGeneration) && storeGeneration >= c.feed.generation
      ensures ok ==> storeGeneration == old(storeGeneration) || storeGeneration == c.feed.generation
    {
      if !Validates(c) || c.feed.generation < indexThroughGeneration { return false; }
      if replace {
        relations := map[];
      }
      ghost var start := relations;
      for k := 0 to |c.relations|
        invariant relations == Put(start, c.relations[..k]) && Keyed(relations)
        invariant storeGeneration == old(storeGeneration) && indexThroughGeneration == old(indexThroughGeneration)
      {
        assert c.relations[..k + 1][..k] == c.relations[..k];
        relations := relations[IdentityOf(c.relations[k]) := c.relations[k]];
      }
      assert c.relations[..|c.relations|] == c.relations;
      indexThroughGeneration := c.feed.generation;
      storeGeneration := Max(storeGeneration, c.feed.generation);
      return true;
    }

    method Apply(c: Commit) returns (ok: bool)
      requires Valid()
      modifies this
      ensures Valid()
      ensures match Applied(old(Value()), c)
              case Some(next) => ok && Value() == next
              case None => !ok && Value() == old(Value())
      ensures ok ==> indexThroughGeneration == c.feed.generation
      ensures ok ==> storeGeneration >= old(storeGeneration) && storeGeneration >= c.feed.generation
      ensures ok ==> storeGeneration == old(storeGeneration) || storeGeneration == c.feed.generation
    {
      if c.feed.generation <= indexThroughGeneration { return false; }
      ok := Accept(c, false);
    }

    method ObserveStoreGeneration(generation: nat) returns (ok: bool)
      requires Valid()
      modifies this
      ensures Valid()
      ensures ok <==> generation >= old(storeGeneration)
      ensures match Observed(old(Value()), generation)
              case Some(next) => ok && Value() == next
              case None => !ok && Value() == old(Value())
    {
      if generation < storeGeneration { return false; }
      storeGeneration := generation;
      return true;
    }

    method Destroy()
      modifies this
      ensures Valid() && Value() == FRESH
    {
      relations, indexThroughGeneration, storeGeneration := map[], 0, 0;
    }

    /** `future_invalid` is never reported by an index in a valid state. */
    method FreshnessNow() returns (f: Freshness, complete: bool)
      requires Valid()
      ensures f == (if indexThroughGeneration == storeGeneration then Complete else Stale)
      ensures complete <==> indexThroughGeneration == storeGeneration
    {
      if indexThroughGeneration == storeGeneration { return Complete, true; }
      if indexThroughGeneration < storeGeneration { return Stale, false; }
      return FutureInvalid, false;
    }

    /** The `relations` property: all values in identity order. */
    method SortedRelations() returns (all: seq<Relation>)
      requires Valid()
      ensures SortedBy(IdentityLe, all)
      ensures forall r :: multiset(all)[r] == if Stored(relations, r) then 1 else 0
    {
      all := [];
      var todo := relations.Keys;
      while todo != {}
        invariant todo <= relations.Keys && SortedBy(IdentityLe, all)
        invariant forall r :: multiset(all)[r] == if Stored(relations, r) && IdentityOf(r) !in todo then 1 else 0
      {
        var id :| id in todo;
        IdentityOrder();
        InsertBySorted(IdentityLe, relations[id], all);
        InsertByContent(IdentityLe, relations[id], all);
        assert IdentityOf(relations[id]) == id;
        all := InsertBy(IdentityLe, relations[id], all);
        todo := todo - {id};
      }
    }

    /** Exactly the relations that match every given clause, each once and in identity order, under the freshness
        of the moment, with the digest of their bytes. */
    method QueryRelations(hash: string -> string, target: Option<Bytes>, source: Option<Bytes>, kind: Option<int>)
      returns (hits: seq<Relation>, identity: string, f: Freshness, complete: bool)
      requires Valid()
      ensures f != FutureInvalid && (complete <==> indexThroughGeneration == storeGeneration)
      ensures Answers(relations, target, source, kind, hits)
      ensures forall r :: r in hits <==>
        && r in relations.Values
        && (target == None || target == Some(r.target)) && (source == None || source == Some(r.source))
        && (kind == None || kind == Some(r.kind))
      ensures identity == hash("mncs-index/result-v1\0" + RawText(hits))
    {
      f, complete := FreshnessNow();
      var all := SortedRelations();
      var matching := (r: Relation) => Matches(r, target, source, kind);
      hits := Where(matching, all);
      WhereSorted(IdentityLe, matching, all);
      forall r { WhereCounts(matching, all, r); }
      AnswerMembers(relations, target, source, kind, hits);
      identity := hash(RESULT_TAG + RawText(hits));
    }
  }

  const RESULT_TAG := "mncs-index/result-v1\0"

  // -- Queries ---------------------------------------------------------------------------------

  predicate Stored(relations: map<Identity, Relation>, r: Relation) {
    IdentityOf(r) in relations && relations[IdentityOf(r)] == r
  }

  ghost predicate Keyed(relations: map<Identity, Relation>) {
    forall id :: id in relations ==> IdentityOf(relations[id]) == id
  }

  /** Bytes as characters of the same value, whose code-point order is the byte order. */
  function Chars(raw: Bytes): (r: string)
    ensures |r| == |raw| && forall i :: 0 <= i < |raw| ==> r[i] as int == raw[i]
  {
    seq(|raw|, i requires 0 <= i < |raw| => raw[i] as char)
  }

  lemma CharsInjective(a: Bytes, b: Bytes)
    requires Chars(a) == Chars(b)
    ensures a == b
  {
    forall i | 0 <= i < |a| ensures a[i] == b[i] {
      assert Chars(a)[i] == Chars(b)[i];
    }
  }

  /** The order of identity tuples. */
  predicate IdentityLe(a: Relation, b: Relation) {
    if a.kind != b.kind then a.kind < b.kind
    else if a.source != b.source then LexLe(Chars(a.source), Chars(b.source))
    else if a.target != b.target then LexLe(Chars(a.target), Chars(b.target))
    else a.ordinal <= b.ordinal
  }

  lemma IdentityOrder()
    ensures TotalPreorder(IdentityLe)
    ensures forall a, b :: IdentityLe(a, b) && IdentityLe(b, a) ==> IdentityOf(a) == IdentityOf(b)
  {
    LexTotalOrder();
    forall a: Relation, b: Relation | IdentityLe(a, b) && IdentityLe(b, a) ensures IdentityOf(a) == IdentityOf(b) {
      if a.source != b.source && Chars(a.source) == Chars(b.source) { CharsInjective(a.source, b.source); }
      if a.target != b.target && Chars(a.target) == Chars(b.target) { CharsInjective(a.target, b.target); }
    }
    forall a: Relation, b: Relation, c: Relation | IdentityLe(a, b) && IdentityLe(b, c) ensures IdentityLe(a, c) {
      IdentityLeTransitive(a, b, c);
    }
  }

  lemma IdentityLeTransitive(a: Relation, b: Relation, c: Relation)
    requires TotalOrder(LexLe) && IdentityLe(a, b) && IdentityLe(b, c)
    ensures IdentityLe(a, c)
  {
    if Chars(a.source) == Chars(b.source) { CharsInjective(a.source, b.source); }
    if Chars(a.target) == Chars(b.target) { CharsInjective(a.target, b.target); }
  }

  /** The one right answer to a query. */
  ghost predicate Answers(relations: map<Identity, Relation>, target: Option<Bytes>, source: Option<Bytes>,
                          kind: Option<int>,
                          hits: seq<Relation>)
  {
    && SortedBy(IdentityLe, hits)
    && forall r :: multiset(hits)[r] == if Stored(relations, r) && Matches(r, target, source, kind) then 1 else 0
  }

  /** A query has exactly one answer, whatever order the values are visited in. */
  lemma AnswerIsUnique(relations: map<Identity, Relation>, target: Option<Bytes>, source: Option<Bytes>,
                       kind: Option<int>,
                       a: seq<Relation>, b: seq<Relation>)
    requires Answers(relations, target, source, kind, a) && Answers(relations, target, source, kind, b)
    ensures a == b
  {
    IdentityOrder();
    assert multiset(a) == multiset(b);
    forall x, y | x in a && y in a && IdentityLe(x, y) && IdentityLe(y, x) ensures x == y {
      assert x in multiset(a) && y in multiset(a);
      assert Stored(relations, x) && Stored(relations, y);
    }
    SortedUnique(IdentityLe, a, b);
  }

  /** The answer, clause by clause. */
  lemma AnswerMembers(relations: map<Identity, Relation>, target: Option<Bytes>, source: Option<Bytes>,
                      kind: Option<int>, hits: seq<Relation>)
    requires Answers(relations, target, source, kind, hits) && Keyed(relations)
    ensures forall r :: r in hits <==>
      && r in relations.Values
      && (target == None || target == Some(r.target)) && (source == None || source == Some(r.source))
      && (kind == None || kind == Some(r.kind))
  {
    forall r ensures r in hits <==> Stored(relations, r) && Matches(r, target, source, kind) {
      assert r in hits <==> multiset(hits)[r] > 0;
    }
    forall r ensures r in relations.Values <==> Stored(relations, r) {
      if r in relations.Values {
        var id :| id in relations && relations[id] == r;
      }
    }
  }

  function RawText(hits: seq<Relation>): string {
    if hits == [] then "" else Chars(hits[0].raw) + RawText(hits[1..])
  }

  /** The bytes of the hits, one after the other. */
  lemma {:induction false} RawTextJoins(a: seq<Relation>, b: seq<Relation>)
    ensures RawText(a + b) == RawText(a) + RawText(b)
    ensures |a| == 1 ==> RawText(a) == Chars(a[0].raw)
  {
    if a == [] {
      assert a + b == b;
    } else {
      RawTextJoins(a[1..], b);
      assert (a + b)[0] == a[0] && (a + b)[1..] == a[1..] + b;
      RawTextHead(a);
      RawTextHead(a + b);
      JoinThree(Chars(a[0].raw), RawText(a[1..]), RawText(b));
    }
  }

  lemma RawTextHead(a: seq<Relation>)
    requires a != []
    ensures RawText(a) == Chars(a[0].raw) + RawText(a[1..])
  {
  }

  lemma JoinThree(x: string, y: string, z: string)
    ensures x + (y + z) == x + y + z && x + "" == x
  {
  }

  predicate Matches(r: Relation, target: Option<Bytes>, source: Option<Bytes>, kind: Option<int>) {
    && (target.None? || r.target == target.value)
    && (source.None? || r.source == source.value)
    && (kind.None? || r.kind == kind.value)
  }

  /** `rebuild`: sort by generation, replace at the first commit, accept the rest. */
  method Rebuild(commits: seq<Commit>) returns (index: DerivedStoreIndex, ok: bool)
    ensures fresh(index) && index.Valid()
    ensures ok <==> Rebuilt(commits).Some?
    ensures ok ==> index.Value() == Rebuilt(commits).value
  {
    index := new DerivedStoreIndex();
    ok := true;
    var ordered := SortBy(ByGeneration, commits);
    for k := 0 to |ordered|
      invariant index.Valid() && ok
      invariant AcceptAll(ordered[..k]) == Some(index.Value())
    {
      assert ordered[..k + 1][..k] == ordered[..k];
      ok := index.Accept(ordered[k], k == 0);
      if !ok {
        RejectionPersists(ordered, k + 1);
        return;
      }
    }
    assert ordered[..|ordered|] == ordered;
  }

  lemma {:induction false} RejectionPersists(commits: seq<Commit>, k: nat)
    requires k <= |commits| && AcceptAll(commits[..k]).None?
    ensures AcceptAll(commits).None?
    decreases |commits| - k
  {
    if k < |commits| {
      assert commits[..k + 1][..k] == commits[..k];
      RejectionPersists(commits, k + 1);
    } else {
      assert commits[..k] == commits;
    }
  }

  // -- Replay equals rebuild -------------------------------------------------------------------

  ghost predicate Increasing(commits: seq<Commit>) {
    && (forall i, j :: 0 <= i < j < |commits| ==> commits[i].feed.generation < commits[j].feed.generation)
    && (forall i :: 0 <= i < |commits| ==> commits[i].feed.generation > 0)
  }

  /** On a fresh index, applying a sequence succeeds exactly when it is valid, positive and strictly
      increasing, and then it is the same as accepting it with the first commit replacing. */
  lemma {:induction false} ApplyAllExact(commits: seq<Commit>)
    ensures ApplyAll(FRESH, commits).Some? <==> Increasing(commits) && forall c :: c in commits ==> Validates(c)
    ensures ApplyAll(FRESH, commits).Some? ==>
      && AcceptAll(commits) == ApplyAll(FRESH, commits)
      && ApplyAll(FRESH, commits).value.through == (if commits == [] then 0 else commits[|commits| - 1].feed.generation)
  {
    if commits != [] {
      var init, last := commits[..|commits| - 1], commits[|commits| - 1];
      ApplyAllExact(init);
      IncreasingSnoc(init, last);
      assert commits == init + [last];
      assert forall c :: c in commits <==> c in init || c == last;
      var before := ApplyAll(FRESH, init);
      if before.Some? {
        AppliedExactly(before.value, last);
        assert ApplyAll(FRESH, commits) == Applied(before.value, last);
        assert AcceptAll(commits) == Accepted(before.value, last, |commits| == 1);
        assert |commits| == 1 ==> before.value == FRESH;
      }
    }
  }

  lemma AppliedExactly(s: State, c: Commit)
    ensures Applied(s, c).Some? <==> c.feed.generation > s.through && Validates(c)
    ensures Applied(s, c).Some? ==>
      Applied(s, c) == Accepted(s, c, false) && Applied(s, c).value.through == c.feed.generation
    ensures Accepted(FRESH, c, true) == Accepted(FRESH, c, false)
  {
  }

  lemma IncreasingSnoc(init: seq<Commit>, last: Commit)
    ensures Increasing(init + [last]) <==>
      Increasing(init) && last.feed.generation > (if init == [] then 0 else init[|init| - 1].feed.generation)
  {
    var all := init + [last];
    assert forall i :: 0 <= i < |init| ==> all[i] == init[i];
    assert all[|init|] == last;
  }

  ghost predicate DistinctPositive(commits: seq<Commit>) {
    && (forall i, j :: 0 <= i < j < |commits| ==> commits[i].feed.generation != commits[j].feed.generation)
    && (forall c :: c in commits ==> c.feed.generation > 0)
  }

  lemma GenerationOrder()
    ensures TotalPreorder(ByGeneration)
  {
  }

  lemma DistinctSeparates(commits: seq<Commit>)
    requires DistinctPositive(commits)
    ensures Separates(ByGeneration, commits)
  {
    forall x, y | x in commits && y in commits && ByGeneration(x, y) && ByGeneration(y, x) ensures x == y {
      var i :| 0 <= i < |commits| && commits[i] == x;
      var j :| 0 <= j < |commits| && commits[j] == y;
      assert commits[i].feed.generation == commits[j].feed.generation;
    }
  }

  /** Distinctness of generations survives any rearrangement. */
  lemma {:induction false} DistinctRearranged(a: seq<Commit>, b: seq<Commit>)
    requires multiset(a) == multiset(b) && DistinctPositive(a)
    ensures DistinctPositive(b)
  {
    SameMembers(a, b);
    DistinctSeparates(a);
    forall i, j | 0 <= i < j < |b| ensures b[i].feed.generation != b[j].feed.generation {
      if b[i].feed.generation == b[j].feed.generation {
        assert b[i] in a && b[j] in a && ByGeneration(b[i], b[j]) && ByGeneration(b[j], b[i]);
        assert b[i] == b[j];
        assert b == b[..j] + [b[j]] + b[j + 1..];
        assert b[..j][i] == b[j];
        assert multiset(b)[b[j]] >= 2;
        OnceOnly(a, b[j]);
      }
    }
  }

  lemma {:induction false} OnceOnly(a: seq<Commit>, c: Commit)
    requires forall i, j :: 0 <= i < j < |a| ==> a[i].feed.generation != a[j].feed.generation
    ensures multiset(a)[c] <= 1
  {
    if a != [] {
      OnceOnly(a[1..], c);
      assert a == [a[0]] + a[1..];
      assert forall j :: 0 <= j < |a[1..]| ==> a[1..][j] == a[j + 1];
    }
  }

  /** For valid commits with distinct positive generations, rebuilding any arrangement of them is
      applying them in generation order to a fresh index. */
  lemma RebuildIsReplay(commits: seq<Commit>, ordered: seq<Commit>)
    requires multiset(commits) == multiset(ordered) && Increasing(ordered)
    requires forall c :: c in commits ==> Validates(c)
    ensures Rebuilt(commits) == ApplyAll(FRESH, ordered) && Rebuilt(commits).Some?
  {
    assert DistinctPositive(ordered);
    DistinctRearranged(ordered, commits);
    DistinctSeparates(ordered);
    GenerationOrder();
    SameMembers(commits, ordered);
    assert SortedBy(ByGeneration, ordered);
    SortByContent(ByGeneration, commits);
    SortBySorted(ByGeneration, commits);
    SortedUnique(ByGeneration, ordered, SortBy(ByGeneration, commits));
    ApplyAllExact(ordered);
  }

  /** Replaying in generation order agrees with the rebuild exactly when generations are distinct
      and positive; otherwise some `apply` is rejected. */
  lemma ReplayAgreesIff(commits: seq<Commit>)
    requires forall c :: c in commits ==> Validates(c)
    ensures ApplyAll(FRESH, SortBy(ByGeneration, commits)) == Rebuilt(commits) && Rebuilt(commits).Some?
            <==> DistinctPositive(commits)
  {
    var s := SortBy(ByGeneration, commits);
    GenerationOrder();
    SortByContent(ByGeneration, commits);
    SortBySorted(ByGeneration, commits);
    SameMembers(s, commits);
    ApplyAllExact(s);
    if DistinctPositive(commits) {
      DistinctRearranged(commits, s);
      forall i, j | 0 <= i < j < |s| ensures s[i].feed.generation < s[j].feed.generation {
        assert ByGeneration(s[i], s[j]);
      }
      assert forall i :: 0 <= i < |s| ==> s[i] in s;
    }
    if Increasing(s) {
      assert forall c :: c in s ==> c.feed.generation > 0;
      assert DistinctPositive(s);
      DistinctRearranged(s, commits);
    }
  }

  // -- Newest wins -----------------------------------------------------------------------------

  ghost predicate Mentions(c: Commit, id: Identity) {
    exists r :: r in c.relations && IdentityOf(r) == id
  }

  /** The last relation of a commit with an identity. */
  function LastOf(relations: seq<Relation>, id: Identity): Option<Relation> {
    if relations == [] then None
    else if IdentityOf(relations[|relations| - 1]) == id then Some(relations[|relations| - 1])
    else LastOf(relations[..|relations| - 1], id)
  }

  /** The last commit of a sequence that mentions an identity. */
  ghost function LastMention(commits: seq<Commit>, id: Identity): Option<Commit> {
    if commits == [] then None
    else if Mentions(commits[|commits| - 1], id) then Some(commits[|commits| - 1])
    else LastMention(commits[..|commits| - 1], id)
  }

  lemma {:induction false} PutLast(relations: map<Identity, Relation>, added: seq<Relation>, id: Identity)
    ensures LastOf(added, id).Some? <==> exists r :: r in added && IdentityOf(r) == id
    ensures var m := Put(relations, added);
      match LastOf(added, id)
      case Some(r) => id in m && m[id] == r
      case None => (id in m <==> id in relations) && (id in relations ==> m[id] == relations[id])
  {
    if added != [] {
      var init, last := added[..|added| - 1], added[|added| - 1];
      assert added == init + [last];
      PutLast(relations, init, id);
      assert forall r :: r in added <==> r in init || r == last;
    }
  }

  /** Accepting commits in order leaves, for every identity, what the last mention of it says. */
  lemma {:induction false} AcceptedHolds(commits: seq<Commit>, id: Identity)
    requires AcceptAll(commits).Some?
    ensures var m := AcceptAll(commits).value.relations;
      match LastMention(commits, id)
      case Some(c) => id in m && Some(m[id]) == LastOf(c.relations, id)
      case None => id !in m
  {
    if commits != [] {
      var init, last := commits[..|commits| - 1], commits[|commits| - 1];
      AcceptedHolds(init, id);
      var before := AcceptAll(init).value;
      PutLast(if |commits| == 1 then map[] else before.relations, last.relations, id);
    }
  }

  /** How inserting a commit by generation moves the last mention. */
  lemma {:induction false} InsertMention(c: Commit, s: seq<Commit>, id: Identity)
    requires SortedBy(ByGeneration, s)
    ensures LastMention(InsertBy(ByGeneration, c, s), id) ==
      match LastMention(s, id)
      case Some(d) => if Mentions(c, id) && c.feed.generation > d.feed.generation then Some(c) else Some(d)
      case None => if Mentions(c, id) then Some(c) else None
  {
    if s == [] || ByGeneration(c, s[0]) {
      FirstMention(c, s, id);
      MentionIsMember(s, id);
    } else {
      InsertMention(c, s[1..], id);
      FirstMention(s[0], InsertBy(ByGeneration, c, s[1..]), id);
      FirstMention(s[0], s[1..], id);
      assert s == [s[0]] + s[1..];
      MentionIsMember(s[1..], id);
    }
  }

  lemma {:induction false} FirstMention(c: Commit, s: seq<Commit>, id: Identity)
    ensures LastMention([c] + s, id) ==
      if LastMention(s, id).Some? then LastMention(s, id) else if Mentions(c, id) then Some(c) else None
  {
    var t := [c] + s;
    if s != [] {
      FirstMention(c, s[..|s| - 1], id);
      assert t[..|t| - 1] == [c] + s[..|s| - 1] && t[|t| - 1] == s[|s| - 1];
    } else {
      assert t[..0] == [];
    }
  }

  lemma {:induction false} MentionIsMember(s: seq<Commit>, id: Identity)
    ensures LastMention(s, id).Some? ==> LastMention(s, id).value in s
  {
    if s != [] {
      MentionIsMember(s[..|s| - 1], id);
    }
  }

  /** Commit `k` decides an identity: the newest that mentions it, and the last given among equally new ones. */
  ghost predicate Decides(commits: seq<Commit>, id: Identity, k: nat) {
    && k < |commits| && Mentions(commits[k], id)
    && forall j :: 0 <= j < |commits| && Mentions(commits[j], id) ==>
         || commits[j].feed.generation < commits[k].feed.generation
         || (commits[j].feed.generation == commits[k].feed.generation && j <= k)
  }

  lemma {:induction false} SortedMention(commits: seq<Commit>, id: Identity) returns (k: Option<nat>)
    ensures k.None? ==> LastMention(SortBy(ByGeneration, commits), id).None?
    ensures k.None? ==> forall c :: c in commits ==> !Mentions(c, id)
    ensures k.Some? ==> Decides(commits, id, k.value)
    ensures k.Some? ==> LastMention(SortBy(ByGeneration, commits), id) == Some(commits[k.value])
  {
    k := None;
    if commits != [] {
      var c, rest := commits[0], commits[1..];
      var l := SortedMention(rest, id);
      GenerationOrder();
      SortBySorted(ByGeneration, rest);
      InsertMention(c, SortBy(ByGeneration, rest), id);
      k := Deciding(commits, id, l);
    }
  }

  /** Whether the first commit or one of the others decides. */
  lemma Deciding(commits: seq<Commit>, id: Identity, l: Option<nat>) returns (k: Option<nat>)
    requires commits != []
    requires l.None? ==> forall c :: c in commits[1..] ==> !Mentions(c, id)
    requires l.Some? ==> Decides(commits[1..], id, l.value)
    ensures k.None? ==> l.None? && forall c :: c in commits ==> !Mentions(c, id)
    ensures k.Some? ==> Decides(commits, id, k.value)
    ensures var c := commits[0];
      k == if Mentions(c, id) && (l.None? || c.feed.generation > commits[1..][l.value].feed.generation) then Some(0)
           else if l.Some? then Some(l.value + 1) else None
  {
    var c, rest := commits[0], commits[1..];
    assert forall j :: 1 <= j < |commits| ==> commits[j] == rest[j - 1] && rest[j - 1] in rest;
    assert forall d :: d in commits <==> d == c || d in rest;
    k := if Mentions(c, id) && (l.None? || c.feed.generation > rest[l.value].feed.generation) then Some(0)
         else if l.Some? then Some(l.value + 1) else None;
  }

  /** After a rebuild from commits given in any order an identity is present exactly when some commit mentions it,
      and then holds the last value that the deciding commit gives it. */
  lemma NewestWins(commits: seq<Commit>, id: Identity) returns (k: nat)
    requires Rebuilt(commits).Some?
    ensures var m := Rebuilt(commits).value.relations;
      && (id in m <==> exists c :: c in commits && Mentions(c, id))
      && (id in m ==> Decides(commits, id, k) && Some(m[id]) == LastOf(commits[k].relations, id))
  {
    var l := SortedMention(commits, id);
    AcceptedHolds(SortBy(ByGeneration, commits), id);
    k := if l.Some? then l.value else 0;
    assert l.Some? ==> commits[k] in commits;
  }
}
