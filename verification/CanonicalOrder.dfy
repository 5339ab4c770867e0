/** The canonical order of records, and the v1 text as a block of the v2 text. */
module CanonicalOrder {
  import opened Collections
  import opened Sorting
  import opened Canonical

  const TERM_RANK := 100

  function Rank(r: Record): nat {
    match r
    case Doc(kind, _, _, _, _, _) => kind
    case Term(_, _, _, _) => TERM_RANK
    case SymRec(_, _, _, _, _) => 101
    case Heading(_, _, _, _, _) => 102
    case Rel(_, _, _, _) => 103
    case Press(_, _, _) => 104
  }

  function Place(r: Record): string {
    if r.Rel? then r.src else r.path
  }

  function Seqno(r: Record): nat {
    if r.Doc? then 0 else r.seqno
  }

  /** `sort_key`: rank, path, sequence number. */
  predicate KeyLe(a: Record, b: Record) {
    if Rank(a) != Rank(b) then Rank(a) < Rank(b)
    else if Place(a) != Place(b) then LexLe(Place(a), Place(b))
    else Seqno(a) <= Seqno(b)
  }

  lemma KeyOrder()
    ensures TotalPreorder(KeyLe)
  {
    LexTotalOrder();
  }

  /** Records that compare equal both ways agree in rank, path and sequence number. */
  lemma SameKey(a: Record, b: Record)
    requires KeyLe(a, b) && KeyLe(b, a)
    ensures Rank(a) == Rank(b) && Place(a) == Place(b) && Seqno(a) == Seqno(b)
  {
    LexTotalOrder();
  }

  /** Two sorted sequences without repetition over the same members are equal. */
  lemma SortedMembersUnique(a: seq<Record>, b: seq<Record>)
    requires SortedBy(KeyLe, a) && SortedBy(KeyLe, b) && Separates(KeyLe, a)
    requires NoRepeats(a) && NoRepeats(b) && forall r :: r in a <==> r in b
    ensures a == b
  {
    var members := set r | r in a;
    NoRepeatsMultiset(a, members);
    NoRepeatsMultiset(b, members);
    KeyOrder();
    SortedUnique(KeyLe, a, b);
  }

  // -- v1 inside v2 ----------------------------------------------------------------------------

  predicate IsV1(r: Record) {
    r.Term? || (r.Doc? && r.kind < TERM_RANK)
  }

  predicate IsRich(r: Record) {
    r.SymRec? || r.Heading? || r.Rel? || r.Press?
  }

  /** `sorted_all_records`: the two sorted lists, sorted again. */
  function SortedAll(v1: seq<Record>, rich: seq<Record>): seq<Record> {
    SortBy(KeyLe, SortBy(KeyLe, v1) + SortBy(KeyLe, rich))
  }

  /** Sorting everything puts the v1 records first, in their own order. */
  lemma AllIsV1ThenRich(v1: seq<Record>, rich: seq<Record>)
    requires (forall r :: r in v1 ==> IsV1(r)) && (forall r :: r in rich ==> IsRich(r))
    ensures SortedAll(v1, rich) == SortBy(KeyLe, v1) + SortBy(KeyLe, rich)
  {
    KeyOrder();
    var a, b := SortBy(KeyLe, v1), SortBy(KeyLe, rich);
    SortBySorted(KeyLe, v1);
    SortBySorted(KeyLe, rich);
    SortByContent(KeyLe, v1);
    SortByContent(KeyLe, rich);
    SameMembers(a, v1);
    SameMembers(b, rich);
    forall i, j | 0 <= i < |a| && 0 <= j < |b| ensures KeyLe(a[i], b[j]) {
      assert a[i] in v1 && b[j] in rich;
    }
    assert SortedBy(KeyLe, a + b);
    SortOfSorted(KeyLe, a + b);
  }

  lemma {:induction false} TextConcat(a: seq<string>, b: seq<string>)
    ensures Text(a + b) == Text(a) + Text(b)
  {
    if a == [] {
      assert a + b == b;
    } else {
      TextConcat(a[1..], b);
      assert (a + b)[1..] == a[1..] + b;
    }
  }

  lemma EachConcat<T, U>(f: T -> U, a: seq<T>, b: seq<T>)
    ensures Each(f, a + b) == Each(f, a) + Each(f, b)
  {
  }

  /** What precedes the record lines. */
  function Header(v: Version, id: string): string {
    Text([Marker(v), "snapshot " + id])
  }

  lemma TextOf(v: Version, id: string, records: seq<Record>)
    ensures CanonicalText(v, id, records) == Header(v, id) + Text(Lines(records)) + "end\n"
  {
    TextConcat([Marker(v), "snapshot " + id] + Lines(records), ["end"]);
    TextConcat([Marker(v), "snapshot " + id], Lines(records));
    assert ["end"][1..] == [];
  }

  /** One block of lines, byte for byte the record section of the v1 text, opens the record section of
      the v2 text; only the header differs and only rich lines follow. */
  lemma V1IsABlockOfV2(id: string, v1: seq<Record>, rich: seq<Record>) returns (block: string)
    requires (forall r :: r in v1 ==> IsV1(r)) && (forall r :: r in rich ==> IsRich(r))
    ensures CanonicalText(V1, id, SortBy(KeyLe, v1)) == Header(V1, id) + block + "end\n"
    ensures CanonicalText(V2, id, SortedAll(v1, rich))
         == Header(V2, id) + block + Text(Lines(SortBy(KeyLe, rich))) + "end\n"
  {
    var a, b := SortBy(KeyLe, v1), SortBy(KeyLe, rich);
    block := Text(Lines(a));
    TextOf(V1, id, a);
    AllIsV1ThenRich(v1, rich);
    TextOf(V2, id, a + b);
    EachConcat(CanonLine, a, b);
    TextConcat(Lines(a), Lines(b));
  }

  /** The text does not depend on the order in which records were produced. */
  lemma TextForgetsProductionOrder(v: Version, id: string, a: seq<Record>, b: seq<Record>)
    requires multiset(a) == multiset(b) && Separates(KeyLe, a)
    ensures CanonicalText(v, id, SortBy(KeyLe, a)) == CanonicalText(v, id, SortBy(KeyLe, b))
  {
    KeyOrder();
    SortCanonical(KeyLe, a, b);
  }
}
