/** Sorting by an order relation, and why the result depends only on what is sorted. */
module Sorting {
  ghost predicate TotalPreorder<T(!new)>(le: (T, T) -> bool) {
    && (forall x, y :: le(x, y) || le(y, x))
    && (forall x, y, z :: le(x, y) && le(y, z) ==> le(x, z))
  }

  ghost predicate TotalOrder<T(!new)>(le: (T, T) -> bool) {
    TotalPreorder(le) && forall x, y :: le(x, y) && le(y, x) ==> x == y
  }

  ghost predicate SortedBy<T>(le: (T, T) -> bool, s: seq<T>) {
    forall i, j :: 0 <= i < j < |s| ==> le(s[i], s[j])
  }

  /** Equal keys only on equal elements: what makes the sorted sequence unique. */
  ghost predicate Separates<T(!new)>(le: (T, T) -> bool, s: seq<T>) {
    forall x, y :: x in s && y in s && le(x, y) && le(y, x) ==> x == y
  }

  function InsertBy<T>(le: (T, T) -> bool, x: T, s: seq<T>): (r: seq<T>) {
    if s == [] then [x]
    else if le(x, s[0]) then [x] + s
    else [s[0]] + InsertBy(le, x, s[1..])
  }

  /** A stable sort: an element is inserted before the first one it does not exceed. */
  function SortBy<T>(le: (T, T) -> bool, s: seq<T>): (r: seq<T>) {
    if s == [] then [] else InsertBy(le, s[0], SortBy(le, s[1..]))
  }

  lemma {:induction false} InsertByContent<T>(le: (T, T) -> bool, x: T, s: seq<T>)
    ensures multiset(InsertBy(le, x, s)) == multiset(s) + multiset{x}
  {
    if s != [] && !le(x, s[0]) {
      InsertByContent(le, x, s[1..]);
      assert s == [s[0]] + s[1..];
    }
  }

  lemma {:induction false} SortByContent<T>(le: (T, T) -> bool, s: seq<T>)
    ensures multiset(SortBy(le, s)) == multiset(s)
    ensures |SortBy(le, s)| == |s|
  {
    if s != [] {
      SortByContent(le, s[1..]);
      InsertByContent(le, s[0], SortBy(le, s[1..]));
      assert s == [s[0]] + s[1..];
      assert |multiset(SortBy(le, s))| == |multiset(s)|;
    }
  }

  lemma SameMembers<T>(a: seq<T>, b: seq<T>)
    requires multiset(a) == multiset(b)
    ensures forall x :: x in a <==> x in b
  {
    assert forall x :: x in a <==> x in multiset(a);
    assert forall x :: x in b <==> x in multiset(b);
  }

  lemma {:induction false} InsertBySorted<T(!new)>(le: (T, T) -> bool, x: T, s: seq<T>)
    requires TotalPreorder(le) && SortedBy(le, s)
    ensures SortedBy(le, InsertBy(le, x, s))
  {
    if s != [] && !le(x, s[0]) {
      var rest := InsertBy(le, x, s[1..]);
      InsertBySorted(le, x, s[1..]);
      InsertByContent(le, x, s[1..]);
      forall y | y in rest ensures le(s[0], y) {
        assert y in multiset(rest);
      }
    }
  }

  lemma {:induction false} SortBySorted<T(!new)>(le: (T, T) -> bool, s: seq<T>)
    requires TotalPreorder(le)
    ensures SortedBy(le, SortBy(le, s))
  {
    if s != [] {
      SortBySorted(le, s[1..]);
      InsertBySorted(le, s[0], SortBy(le, s[1..]));
    }
  }

  /** Two sorted arrangements of the same elements are equal when equal keys mean equal elements. */
  lemma {:induction false} SortedUnique<T(!new)>(le: (T, T) -> bool, a: seq<T>, b: seq<T>)
    requires TotalPreorder(le) && SortedBy(le, a) && SortedBy(le, b)
    requires multiset(a) == multiset(b) && Separates(le, a)
    ensures a == b
  {
    assert |multiset(a)| == |multiset(b)|;
    if a != [] {
      SameHead(le, a, b);
      SameRest(a, b);
      assert a == [a[0]] + a[1..] && b == [b[0]] + b[1..];
      SortedUnique(le, a[1..], b[1..]);
    }
  }

  lemma SameHead<T(!new)>(le: (T, T) -> bool, a: seq<T>, b: seq<T>)
    requires TotalPreorder(le) && SortedBy(le, a) && SortedBy(le, b) && a != [] && b != []
    requires multiset(a) == multiset(b) && Separates(le, a)
    ensures a[0] == b[0]
  {
    SameMembers(a, b);
    assert a[0] in b && b[0] in a;
    var i :| 0 <= i < |b| && b[i] == a[0];
    var j :| 0 <= j < |a| && a[j] == b[0];
    assert le(a[0], a[0]) && le(b[0], b[0]);
    assert le(a[0], b[0]) && le(b[0], a[0]);
  }

  lemma SameRest<T>(a: seq<T>, b: seq<T>)
    requires a != [] && b != [] && a[0] == b[0] && multiset(a) == multiset(b)
    ensures multiset(a[1..]) == multiset(b[1..])
  {
    assert a == [a[0]] + a[1..] && b == [b[0]] + b[1..];
    assert multiset(a[1..]) == multiset(a) - multiset{a[0]};
    assert multiset(b[1..]) == multiset(b) - multiset{b[0]};
  }

  /** Sorting forgets the order its input arrived in. */
  lemma SortCanonical<T(!new)>(le: (T, T) -> bool, a: seq<T>, b: seq<T>)
    requires TotalPreorder(le) && multiset(a) == multiset(b) && Separates(le, a)
    ensures SortBy(le, a) == SortBy(le, b)
  {
    SortByContent(le, a);
    SortByContent(le, b);
    SortBySorted(le, a);
    SortBySorted(le, b);
    SameMembers(SortBy(le, a), a);
    SortedUnique(le, SortBy(le, a), SortBy(le, b));
  }

  /** Sorting something sorted changes nothing. */
  lemma SortOfSorted<T(!new)>(le: (T, T) -> bool, s: seq<T>)
    requires TotalPreorder(le) && SortedBy(le, s)
    ensures SortBy(le, s) == s
  {
    if s != [] {
      SortOfSorted(le, s[1..]);
      if |s| > 1 { assert le(s[0], s[1]); }
    }
  }

  // -- Filtering -------------------------------------------------------------------------------

  function Where<T>(p: T -> bool, s: seq<T>): seq<T> {
    if s == [] then [] else if p(s[0]) then [s[0]] + Where(p, s[1..]) else Where(p, s[1..])
  }

  lemma {:induction false} WhereCounts<T>(p: T -> bool, s: seq<T>, x: T)
    ensures multiset(Where(p, s))[x] == if p(x) then multiset(s)[x] else 0
  {
    if s != [] {
      WhereCounts(p, s[1..], x);
      assert s == [s[0]] + s[1..];
    }
  }

  lemma {:induction false} WhereSorted<T>(le: (T, T) -> bool, p: T -> bool, s: seq<T>)
    requires SortedBy(le, s)
    ensures SortedBy(le, Where(p, s)) && forall x :: x in Where(p, s) ==> x in s
  {
    if s != [] {
      WhereSorted(le, p, s[1..]);
      var rest := Where(p, s[1..]);
      forall i | 0 <= i < |rest| ensures le(s[0], rest[i]) {
        assert rest[i] in s[1..];
      }
    }
  }

  // -- First differences -----------------------------------------------------------------------

  /** `a` and `b` agree before position `i` and differ there, `a` being the lesser. */
  predicate LessFirstAt<T(==)>(less: (T, T) -> bool, a: seq<T>, b: seq<T>, i: nat) {
    i < |a| && i < |b| && a[..i] == b[..i] && a[i] != b[i] && less(a[i], b[i])
  }

  ghost predicate LessFirst<T>(less: (T, T) -> bool, a: seq<T>, b: seq<T>) {
    exists i: nat :: LessFirstAt(less, a, b, i)
  }

  lemma LessFirstTail<T>(less: (T, T) -> bool, a: seq<T>, b: seq<T>)
    requires a != [] && b != [] && a[0] == b[0]
    ensures LessFirst(less, a, b) <==> LessFirst(less, a[1..], b[1..])
    ensures a <= b <==> a[1..] <= b[1..]
  {
    var c, d := a[1..], b[1..];
    assert a == [a[0]] + c && b == [b[0]] + d;
    if i: nat :| LessFirstAt(less, a, b, i) {
      assert c[..i - 1] == a[..i][1..] && d[..i - 1] == b[..i][1..];
      assert LessFirstAt(less, c, d, i - 1);
    }
    if i: nat :| LessFirstAt(less, c, d, i) {
      assert a[..i + 1] == [a[0]] + c[..i] && b[..i + 1] == [b[0]] + d[..i];
      assert LessFirstAt(less, a, b, i + 1);
    }
  }

  lemma LessFirstHead<T>(less: (T, T) -> bool, a: seq<T>, b: seq<T>)
    requires a != [] && b != [] && a[0] != b[0]
    ensures LessFirst(less, a, b) <==> less(a[0], b[0])
  {
    if less(a[0], b[0]) {
      assert LessFirstAt(less, a, b, 0);
    }
    if i: nat :| LessFirstAt(less, a, b, i) {
      if i > 0 { SamePrefixHead(a, b, i); }
    }
  }

  lemma SamePrefixHead<T>(a: seq<T>, b: seq<T>, i: nat)
    requires 0 < i <= |a| && i <= |b| && a[..i] == b[..i]
    ensures a[0] == b[0]
  {
    assert a[0] == a[..i][0] && b[0] == b[..i][0];
  }

  // -- Text ------------------------------------------------------------------------------------

  /** Code-point order, which is also the byte order of the UTF-8 encodings. */
  predicate LexLe(a: string, b: string) {
    if a == [] then true
    else if b == [] then false
    else if a[0] != b[0] then a[0] < b[0]
    else LexLe(a[1..], b[1..])
  }

  /** The first code point in which two texts differ orders them; a text that ends first comes first. */
  lemma {:induction false} FirstCodePointDecides(a: string, b: string)
    ensures LexLe(a, b) <==> a <= b || LessFirst((x: char, y: char) => x < y, a, b)
  {
    var less := (x: char, y: char) => x < y;
    if a != [] && b != [] {
      if a[0] == b[0] {
        FirstCodePointDecides(a[1..], b[1..]);
        LessFirstTail(less, a, b);
      } else {
        LessFirstHead(less, a, b);
      }
    }
  }

  lemma {:induction false} LexTotal(a: string, b: string)
    ensures LexLe(a, b) || LexLe(b, a)
    ensures LexLe(a, b) && LexLe(b, a) ==> a == b
  {
    if a != [] && b != [] && a[0] == b[0] {
      LexTotal(a[1..], b[1..]);
      assert a == [a[0]] + a[1..] && b == [b[0]] + b[1..];
    }
  }

  lemma {:induction false} LexTransitive(a: string, b: string, c: string)
    requires LexLe(a, b) && LexLe(b, c)
    ensures LexLe(a, c)
  {
    if a != [] && a[0] == b[0] && b[0] == c[0] {
      LexTransitive(a[1..], b[1..], c[1..]);
    }
  }

  lemma LexTotalOrder()
    ensures TotalOrder(LexLe)
  {
    forall a, b ensures (LexLe(a, b) || LexLe(b, a)) && (LexLe(a, b) && LexLe(b, a) ==> a == b) {
      LexTotal(a, b);
    }
    forall a, b, c | LexLe(a, b) && LexLe(b, c) ensures LexLe(a, c) {
      LexTransitive(a, b, c);
    }
  }

  // -- Sets ------------------------------------------------------------------------------------

  /** Sorted without repetition. */
  ghost predicate IsSortedSet<T(!new)>(le: (T, T) -> bool, s: set<T>, r: seq<T>) {
    && SortedBy(le, r)
    && (forall i, j :: 0 <= i < j < |r| ==> r[i] != r[j])
    && (forall x :: x in r <==> x in s)
  }

  lemma NoRepeatsMultiset<T(!new)>(r: seq<T>, s: set<T>)
    requires forall i, j :: 0 <= i < j < |r| ==> r[i] != r[j]
    requires forall x :: x in r <==> x in s
    ensures multiset(r) == multiset(s)
  {
    forall x ensures multiset(r)[x] == multiset(s)[x] {
      NoRepeatsCount(r, x);
    }
  }

  lemma {:induction false} NoRepeatsCount<T>(r: seq<T>, x: T)
    requires forall i, j :: 0 <= i < j < |r| ==> r[i] != r[j]
    ensures multiset(r)[x] == if x in r then 1 else 0
  {
    if r != [] {
      assert r == [r[0]] + r[1..];
      NoRepeatsCount(r[1..], x);
      if r[0] == x && x in r[1..] {
        assert false;
      }
    }
  }

  lemma SortedSetUnique<T(!new)>(le: (T, T) -> bool, s: set<T>, a: seq<T>, b: seq<T>)
    requires TotalOrder(le) && IsSortedSet(le, s, a) && IsSortedSet(le, s, b)
    ensures a == b
  {
    NoRepeatsMultiset(a, s);
    NoRepeatsMultiset(b, s);
    SortedUnique(le, a, b);
  }

  /** `sorted(s)` for a set of strings. */
  ghost function SortedSet(s: set<string>): (r: seq<string>)
    ensures IsSortedSet(LexLe, s, r)
  {
    SortedSetExists(s);
    var r :| IsSortedSet(LexLe, s, r);
    r
  }

  lemma {:induction false} SortedSetExists(s: set<string>)
    ensures exists r :: IsSortedSet(LexLe, s, r)
  {
    if s == {} {
      assert IsSortedSet(LexLe, s, []);
    } else {
      var x :| x in s;
      SortedSetExists(s - {x});
      var rest :| IsSortedSet(LexLe, s - {x}, rest);
      InsertNew(s - {x}, x, rest);
      assert s - {x} + {x} == s;
    }
  }

  lemma InsertNew(s: set<string>, x: string, r: seq<string>)
    requires x !in s && IsSortedSet(LexLe, s, r)
    ensures IsSortedSet(LexLe, s + {x}, InsertBy(LexLe, x, r))
  {
    LexTotalOrder();
    InsertBySorted(LexLe, x, r);
    InsertByContent(LexLe, x, r);
    NoRepeatsMultiset(r, s);
    var t := InsertBy(LexLe, x, r);
    assert multiset(t) == multiset(s + {x});
    forall i, j | 0 <= i < j < |t| ensures t[i] != t[j] {
      NoDuplicates(t, s + {x}, i, j);
    }
    assert forall y :: y in t <==> y in multiset(t);
  }

  lemma NoDuplicates<T>(t: seq<T>, s: set<T>, i: int, j: int)
    requires multiset(t) == multiset(s) && 0 <= i < j < |t|
    ensures t[i] != t[j]
  {
    assert t == t[..j] + [t[j]] + t[j + 1..];
    assert t[..j][i] == t[i];
    assert t[i] == t[j] ==> multiset(t)[t[j]] >= 2;
  }

  method SortStrings(s: set<string>) returns (r: seq<string>)
    ensures r == SortedSet(s)
  {
    r := [];
    var todo := s;
    while todo != {}
      invariant todo <= s && IsSortedSet(LexLe, s - todo, r)
    {
      var x :| x in todo;
      InsertNew(s - todo, x, r);
      assert s - (todo - {x}) == s - todo + {x};
      r := InsertBy(LexLe, x, r);
      todo := todo - {x};
    }
    assert s - todo == s;
    LexTotalOrder();
    SortedSetUnique(LexLe, s, r, SortedSet(s));
  }
}
