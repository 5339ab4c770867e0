/** Members, repetition, counts and sizes of finite collections. */
module Collections {
  function Members<T(==)>(s: seq<T>): set<T> {
    set x | x in s
  }

  ghost predicate NoRepeats<T>(s: seq<T>) {
    forall i, j :: 0 <= i < j < |s| ==> s[i] != s[j]
  }

  // -- Counting --------------------------------------------------------------------------------

  function Count<T>(p: T -> bool, s: seq<T>): nat {
    if s == [] then 0 else Count(p, s[..|s| - 1]) + (if p(s[|s| - 1]) then 1 else 0)
  }

  /** Replacing one element changes the count by that element alone. */
  lemma {:induction false} CountUpdate<T>(p: T -> bool, s: seq<T>, i: nat, x: T)
    requires i < |s|
    ensures Count(p, s[i := x]) == Count(p, s) - (if p(s[i]) then 1 else 0) + (if p(x) then 1 else 0)
  {
    var n := |s| - 1;
    if i == n {
      assert s[i := x][..n] == s[..n];
    } else {
      assert s[i := x][..n] == s[..n][i := x];
      CountUpdate(p, s[..n], i, x);
    }
  }

  lemma {:induction false} CountZero<T>(p: T -> bool, s: seq<T>)
    ensures Count(p, s) == 0 <==> forall i :: 0 <= i < |s| ==> !p(s[i])
  {
    if s != [] {
      CountZero(p, s[..|s| - 1]);
    }
  }

  // -- Sums ------------------------------------------------------------------------------------

  function Sum<T>(cost: T -> nat, s: seq<T>): nat {
    if s == [] then 0 else Sum(cost, s[..|s| - 1]) + cost(s[|s| - 1])
  }

  /** Replacing one element changes the sum by that element alone. */
  lemma {:induction false} SumUpdate<T>(cost: T -> nat, s: seq<T>, i: nat, x: T)
    requires i < |s|
    ensures Sum(cost, s[i := x]) == Sum(cost, s) - cost(s[i]) + cost(x)
  {
    var n := |s| - 1;
    if i == n {
      assert s[i := x][..n] == s[..n];
    } else {
      assert s[i := x][..n] == s[..n][i := x];
      SumUpdate(cost, s[..n], i, x);
    }
  }

  lemma {:induction false} SumMonotone<T(!new)>(a: T -> nat, b: T -> nat, s: seq<T>)
    requires forall x :: a(x) <= b(x)
    ensures Sum(a, s) <= Sum(b, s)
  {
    if s != [] {
      SumMonotone(a, b, s[..|s| - 1]);
    }
  }

  // -- Sizes -----------------------------------------------------------------------------------

  lemma {:induction false} SubsetNotLarger<T>(a: set<T>, b: set<T>)
    requires a <= b
    ensures |a| <= |b|
  {
    if a != {} {
      var x :| x in a;
      SubsetNotLarger(a - {x}, b - {x});
    }
  }
}
