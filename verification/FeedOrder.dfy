/** The order of relation identities is the byte order of the records they were decoded from. */
module FeedOrder {
  import opened Sorting
  import opened FeedRecords
  import opened StoreFeed

  predicate BytesLe(a: Bytes, b: Bytes) {
    LexLe(Chars(a), Chars(b))
  }

  /** Kind, source, target and ordinal, as they stand in the record. */
  function IdentityBytes(raw: Bytes): Bytes
    requires |raw| == 80
  {
    [raw[4]] + raw[8..20] + raw[20..32] + raw[72..80]
  }

  lemma CharsConcat(a: Bytes, b: Bytes)
    ensures Chars(a + b) == Chars(a) + Chars(b)
  {
  }

  /** Equal lengths: the first part decides unless it is the same. */
  lemma {:induction false} LexConcat(a: string, b: string, c: string, d: string)
    requires |a| == |c|
    ensures LexLe(a + b, c + d) <==> if a == c then LexLe(b, d) else LexLe(a, c)
  {
    if a == "" {
      assert a + b == b && c + d == d;
    } else {
      assert (a + b)[0] == a[0] && (a + b)[1..] == a[1..] + b;
      assert (c + d)[0] == c[0] && (c + d)[1..] == c[1..] + d;
      assert a == [a[0]] + a[1..] && c == [c[0]] + c[1..];
      LexConcat(a[1..], b, c[1..], d);
    }
  }

  lemma BytesConcat(a: Bytes, b: Bytes, c: Bytes, d: Bytes)
    requires |a| == |c|
    ensures BytesLe(a + b, c + d) <==> if a == c then BytesLe(b, d) else BytesLe(a, c)
  {
    CharsConcat(a, b);
    CharsConcat(c, d);
    LexConcat(Chars(a), Chars(b), Chars(c), Chars(d));
    if Chars(a) == Chars(c) { CharsInjective(a, c); }
  }

  lemma {:induction false} FromFirst(b: Byte, rest: Bytes)
    ensures FromBytes([b] + rest) == b * Limit(|rest|) + FromBytes(rest)
  {
    var all := [b] + rest;
    if rest == [] {
      assert all[..0] == [];
    } else {
      var n := |rest| - 1;
      FromFirst(b, rest[..n]);
      assert all[..|all| - 1] == [b] + rest[..n];
    }
  }

  /** Big-endian numbers of one width are ordered as their bytes. */
  lemma {:induction false} NumbersAsBytes(a: Bytes, b: Bytes)
    requires |a| == |b|
    ensures BytesLe(a, b) <==> FromBytes(a) <= FromBytes(b)
  {
    if a != [] {
      var c, d := a[1..], b[1..];
      assert a == [a[0]] + c && b == [b[0]] + d;
      FromFirst(a[0], c);
      FromFirst(b[0], d);
      BytesBackAndForth(c);
      BytesBackAndForth(d);
      NumbersAsBytes(c, d);
      FirstByte(a, b);
      Leading(a[0], b[0], FromBytes(c), FromBytes(d), Limit(|c|));
    }
  }

  lemma FirstByte(a: Bytes, b: Bytes)
    requires |a| == |b| && a != []
    ensures BytesLe(a, b) <==> if a[0] == b[0] then BytesLe(a[1..], b[1..]) else a[0] < b[0]
  {
    assert Chars(a)[1..] == Chars(a[1..]) && Chars(b)[1..] == Chars(b[1..]);
  }

  lemma Leading(x: nat, y: nat, c: nat, d: nat, limit: nat)
    requires c < limit && d < limit
    ensures x * limit + c <= y * limit + d <==> if x == y then c <= d else x < y
  {
    if x < y {
      MoreTimes(x, y, limit);
    } else if y < x {
      MoreTimes(y, x, limit);
    }
  }

  lemma {:induction false} MoreTimes(x: nat, y: nat, limit: nat)
    requires x < y
    ensures x * limit + limit <= y * limit
  {
    if x + 1 < y {
      MoreTimes(x, y - 1, limit);
    }
  }

  /** Two decoded relations are in identity order exactly when the identity bytes of their records are in byte order. */
  lemma IdentityOrderIsByteOrder(x: Bytes, y: Bytes)
    requires DecodeRelation(x).Some? && DecodeRelation(y).Some?
    ensures IdentityLe(DecodeRelation(x).value, DecodeRelation(y).value)
      <==> BytesLe(IdentityBytes(x), IdentityBytes(y))
  {
    var a, b := DecodeRelation(x).value, DecodeRelation(y).value;
    BytesConcat([x[4]] + x[8..20] + x[20..32], x[72..80], [y[4]] + y[8..20] + y[20..32], y[72..80]);
    BytesConcat([x[4]] + x[8..20], x[20..32], [y[4]] + y[8..20], y[20..32]);
    BytesConcat([x[4]], x[8..20], [y[4]], y[8..20]);
    NumbersAsBytes(x[72..80], y[72..80]);
    FirstByte([x[4]], [y[4]]);
    SameParts(x, y);
  }

  lemma SameParts(x: Bytes, y: Bytes)
    requires |x| == 80 && |y| == 80
    ensures [x[4]] + x[8..20] == [y[4]] + y[8..20] <==> x[4] == y[4] && x[8..20] == y[8..20]
    ensures [x[4]] + x[8..20] + x[20..32] == [y[4]] + y[8..20] + y[20..32]
      <==> x[4] == y[4] && x[8..20] == y[8..20] && x[20..32] == y[20..32]
  {
    SplitAt([x[4]], x[8..20], [y[4]], y[8..20]);
    SplitAt([x[4]] + x[8..20], x[20..32], [y[4]] + y[8..20], y[20..32]);
  }

  lemma SplitAt(a: Bytes, b: Bytes, c: Bytes, d: Bytes)
    requires |a| == |c|
    ensures a + b == c + d <==> a == c && b == d
  {
    if a + b == c + d {
      assert a == (a + b)[..|a|] && c == (c + d)[..|c|];
      assert b == (a + b)[|a|..] && d == (c + d)[|c|..];
    }
  }
}
