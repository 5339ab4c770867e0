/** When different records, and different indexes, print different texts: the exact conditions on paths. */
module LineInjectivity {
  import opened Canonical

  // -- Lines that need no condition --------------------------------------------------------------

  lemma DecInjective(a: nat, b: nat)
    requires Dec(a) == Dec(b)
    ensures a == b
  {
    UndecDec(a);
    UndecDec(b);
  }

  lemma HexInjective(a: int, b: int)
    requires Hex16(a) == Hex16(b) && Digest64(a) && Digest64(b)
    ensures a == b
  {
    UnhexHex16(a);
    UnhexHex16(b);
    Remainder(a, TWO64);
    Remainder(b, TWO64);
  }

  lemma DocInjective(a: Record, b: Record)
    requires a.Doc? && b.Doc? && WellFormed(a) && WellFormed(b) && Body(a) == Body(b)
    ensures a == b
  {
    FieldsFree(a.kind, a.digest);
    FieldsFree(b.kind, b.digest);
    FieldsFree(a.size, 0);
    FieldsFree(b.size, 0);
    FieldsFree(a.words, 0);
    FieldsFree(b.words, 0);
    FieldsFree(a.lines, 0);
    FieldsFree(b.lines, 0);
    var a3, b3 := a.path + SP + Hex16(a.digest), b.path + SP + Hex16(b.digest);
    var a4, b4 := a3 + SP + Dec(a.size), b3 + SP + Dec(b.size);
    var a5, b5 := a4 + SP + Dec(a.words), b4 + SP + Dec(b.words);
    var a6, b6 := a5 + SP + Dec(a.lines), b5 + SP + Dec(b.lines);
    CutFirst(' ', Dec(a.kind), a6 + SP + "0", Dec(b.kind), b6 + SP + "0");
    CutLast(' ', a6, "0", b6, "0");
    CutLast(' ', a5, Dec(a.lines), b5, Dec(b.lines));
    CutLast(' ', a4, Dec(a.words), b4, Dec(b.words));
    CutLast(' ', a3, Dec(a.size), b3, Dec(b.size));
    CutLast(' ', a.path, Hex16(a.digest), b.path, Hex16(b.digest));
    DecInjective(a.kind, b.kind);
    DecInjective(a.size, b.size);
    DecInjective(a.words, b.words);
    DecInjective(a.lines, b.lines);
    HexInjective(a.digest, b.digest);
  }

  lemma TermInjective(a: Record, b: Record)
    requires a.Term? && b.Term? && WellFormed(a) && WellFormed(b) && Body(a) == Body(b)
    ensures a == b
  {
    FieldsFree(a.seqno, a.tid);
    FieldsFree(b.seqno, b.tid);
    var a2, b2 := a.path + SP + a.token, b.path + SP + b.token;
    CutLast(' ', a2 + SP + Hex16(a.tid), Dec(a.seqno), b2 + SP + Hex16(b.tid), Dec(b.seqno));
    CutLast(' ', a2, Hex16(a.tid), b2, Hex16(b.tid));
    CutLast(' ', a.path, a.token, b.path, b.token);
    DecInjective(a.seqno, b.seqno);
    HexInjective(a.tid, b.tid);
  }

  lemma SymInjective(a: Record, b: Record)
    requires a.SymRec? && b.SymRec? && WellFormed(a) && WellFormed(b) && Body(a) == Body(b)
    ensures a == b
  {
    FieldsFree(a.seqno, a.ndigest);
    FieldsFree(b.seqno, b.ndigest);
    var a2, b2 := a.path + SP + SymText(a.sym), b.path + SP + SymText(b.sym);
    var a3, b3 := a2 + SP + a.name, b2 + SP + b.name;
    CutLast(' ', a3 + SP + Hex16(a.ndigest), Dec(a.seqno), b3 + SP + Hex16(b.ndigest), Dec(b.seqno));
    CutLast(' ', a3, Hex16(a.ndigest), b3, Hex16(b.ndigest));
    CutLast(' ', a2, a.name, b2, b.name);
    CutLast(' ', a.path, SymText(a.sym), b.path, SymText(b.sym));
    DecInjective(a.seqno, b.seqno);
    HexInjective(a.ndigest, b.ndigest);
    assert |SymText(a.sym)| == |SymText(b.sym)| && SymText(a.sym)[0] == SymText(b.sym)[0];
  }

  lemma PressInjective(a: Record, b: Record)
    requires a.Press? && b.Press? && WellFormed(a) && WellFormed(b) && Body(a) == Body(b)
    ensures a == b
  {
    FieldsFree(a.seqno, 0);
    FieldsFree(b.seqno, 0);
    CutLast(' ', a.path + SP + a.pid, Dec(a.seqno), b.path + SP + b.pid, Dec(b.seqno));
    CutLast(' ', a.path, a.pid, b.path, b.pid);
    DecInjective(a.seqno, b.seqno);
  }

  lemma SameTag(a: Record, b: Record)
    requires CanonLine(a) == CanonLine(b)
    ensures Tag(a) == Tag(b) && Body(a) == Body(b)
    ensures a.Doc? == b.Doc? && a.Term? == b.Term? && a.SymRec? == b.SymRec?
    ensures a.Heading? == b.Heading? && a.Rel? == b.Rel? && a.Press? == b.Press?
  {
    CutFirst(' ', Tag(a), Body(a), Tag(b), Body(b));
    assert |Tag(a)| == |Tag(b)| && Tag(a)[0] == Tag(b)[0];
  }

  // -- One path continues another ----------------------------------------------------------------

  /** `q` is `p`, a space, `mark`, and then its end or a space. */
  predicate Continues(p: string, mark: string, q: string) {
    q == p + SP + mark || p + SP + mark + SP <= q
  }

  ghost predicate ContinuesRelation(p: string, q: string) {
    exists k: RelKind :: Continues(p, RelText(k), q)
  }

  /** Two source paths one of which is the other followed by a relation word. */
  ghost predicate RelConfusable(p: string, q: string) {
    ContinuesRelation(p, q) || ContinuesRelation(q, p)
  }

  function Mark(level: nat, seqno: nat, digest: int): string {
    Dec(level) + SP + Dec(seqno) + SP + Hex16(digest)
  }

  ghost predicate ContinuesMark(p: string, q: string, limit: nat) {
    exists level: nat, n: nat, digest: int ::
      1 <= level <= 6 && n < limit && Digest64(digest) && Continues(p, Mark(level, n, digest), q)
  }

  const SIXTEEN_DIGITS := 1_000_000_000_000_000

  /** Some sequence number has sixteen decimal digits, and `q` is `p` followed by a level alone. */
  ghost predicate ContinuesLevel(p: string, q: string, limit: nat) {
    limit > SIXTEEN_DIGITS && exists level: nat :: 1 <= level <= 6 && q == p + SP + Dec(level)
  }

  /** Two paths one of which is the other followed by what a heading line has between path and title. */
  ghost predicate HeadingConfusable(p: string, q: string, limit: nat) {
    || ContinuesMark(p, q, limit) || ContinuesMark(q, p, limit)
    || ContinuesLevel(p, q, limit) || ContinuesLevel(q, p, limit)
  }

  /** Two equal texts that start with different paths: the longer path runs over the next fields. */
  lemma LongerPath(p: string, r: string, q: string, t: string) returns (rest: string)
    requires p + SP + r == q + SP + t && |p| < |q|
    ensures q == p + SP + rest && r == rest + SP + t
  {
    var u := p + SP + r;
    assert u == q + SP + t;
    rest := q[|p| + 1..];
    assert q == u[..|q|] && p == u[..|p|] && u[|p|] == ' ';
    assert q == p + SP + rest;
    assert r == u[|p| + 1..] && t == u[|q| + 1..];
    assert u == p + SP + rest + SP + t;
    assert r == rest + SP + t;
  }

  lemma SamePath(p: string, r: string, q: string, t: string)
    requires p + SP + r == q + SP + t && |p| == |q|
    ensures p == q && r == t
  {
    assert p == (p + SP + r)[..|p|] && q == (q + SP + t)[..|q|];
    assert r == (p + SP + r)[|p| + 1..] && t == (q + SP + t)[|q| + 1..];
  }

  /** The first word of a text that starts inside a path: the path ends with it, or goes on after a space. */
  lemma FirstWord(rest: string, t: string, w: string, x: string) returns (more: string)
    requires rest + SP + t == w + SP + x && Free(' ', w)
    ensures (rest == w && t == x) || (rest == w + SP + more && more + SP + t == x)
  {
    var u := w + SP + x;
    assert u == rest + SP + t && u[|rest|] == ' ';
    assert forall i :: 0 <= i < |w| ==> w[i] in w && u[i] == w[i];
    more := "";
    if |rest| == |w| {
      SamePath(rest, t, w, x);
    } else {
      more := LongerPath(w, x, rest, t);
    }
  }

  // -- Relations ---------------------------------------------------------------------------------

  function RelTail(r: Record): string
    requires r.Rel?
  {
    RelText(r.rel) + SP + (r.dst + SP + Dec(r.seqno))
  }

  /** Relations with one source print injectively. */
  lemma SameSourceInjective(a: Record, b: Record)
    requires a.Rel? && b.Rel? && RelTail(a) == RelTail(b) && a.src == b.src
    ensures a == b
  {
    FieldsFree(a.seqno, 0);
    FieldsFree(b.seqno, 0);
    RelTextFree(a.rel);
    RelTextFree(b.rel);
    CutFirst(' ', RelText(a.rel), a.dst + SP + Dec(a.seqno), RelText(b.rel), b.dst + SP + Dec(b.seqno));
    CutLast(' ', a.dst, Dec(a.seqno), b.dst, Dec(b.seqno));
    DecInjective(a.seqno, b.seqno);
    assert RelText(a.rel)[0] == RelText(b.rel)[0] && RelText(a.rel)[2] == RelText(b.rel)[2];
  }

  lemma LongerSource(a: Record, b: Record)
    requires a.Rel? && b.Rel? && Body(a) == Body(b) && |a.src| < |b.src|
    ensures ContinuesRelation(a.src, b.src)
  {
    RelTextFree(a.rel);
    var rest := LongerPath(a.src, RelTail(a), b.src, RelTail(b));
    var more := FirstWord(rest, RelTail(b), RelText(a.rel), a.dst + SP + Dec(a.seqno));
    ContinuesBy(a.src, RelText(a.rel), rest, more);
    assert Continues(a.src, RelText(a.rel), b.src);
  }

  lemma ContinuesBy(p: string, w: string, rest: string, more: string)
    requires rest == w || rest == w + SP + more
    ensures Continues(p, w, p + SP + rest)
  {
    if rest != w {
      assert p + SP + rest == (p + SP + w + SP) + more;
    }
  }

  /** The part of a continued path after the mark, as it reads at the start of another field. */
  lemma Continuation(p: string, w: string, q: string, t: string) returns (field: string)
    requires Continues(p, w, q) && SingleLine(q) && SingleLine(t)
    ensures SingleLine(field) && q + SP + t == p + SP + (w + SP + field)
  {
    if q == p + SP + w {
      field := t;
    } else {
      var more := q[|p + SP + w + SP|..];
      field := more + SP + t;
      assert q == p + SP + w + SP + more;
    }
  }

  lemma ConfusedSources(p: string, q: string) returns (a: Record, b: Record)
    requires SingleLine(p) && SingleLine(q) && ContinuesRelation(p, q)
    ensures a.Rel? && b.Rel? && a.src == p && b.src == q
    ensures WellFormed(a) && WellFormed(b) && CanonLine(a) == CanonLine(b)
  {
    var k: RelKind :| Continues(p, RelText(k), q);
    var tail := RelText(k) + SP + "";
    RelTextFree(k);
    var field := Continuation(p, RelText(k), q, tail);
    a, b := Rel(p, k, field, 0), Rel(q, k, "", 0);
    var zero := Dec(0);
    Reassociate(RelText(k), "", zero);
    Reassociate(q, tail, zero);
    Reassociate(RelText(k), field, zero);
    Reassociate(p, RelText(k) + SP + field, zero);
    assert Body(a) == Body(b);
  }

  ghost predicate RelationsCollide(p: string, q: string) {
    exists a: Record, b: Record :: SameLine(a, b) && a.Rel? && b.Rel? && a.src == p && b.src == q
  }

  predicate SameLine(a: Record, b: Record) {
    WellFormed(a) && WellFormed(b) && CanonLine(a) == CanonLine(b)
  }

  /** Exactly when two different source paths can share a line. */
  lemma RelationsCollideIff(p: string, q: string)
    requires SingleLine(p) && SingleLine(q) && p != q
    ensures RelationsCollide(p, q) <==> RelConfusable(p, q)
  {
    if RelationsCollide(p, q) {
      var a: Record, b: Record :| SameLine(a, b) && a.Rel? && b.Rel? && a.src == p && b.src == q;
      SameTag(a, b);
      if |p| == |q| {
        SamePath(p, RelTail(a), q, RelTail(b));
      } else if |p| < |q| {
        LongerSource(a, b);
      } else {
        LongerSource(b, a);
      }
    }
    if ContinuesRelation(p, q) {
      var a, b := ConfusedSources(p, q);
      assert SameLine(a, b);
    }
    if ContinuesRelation(q, p) {
      var b, a := ConfusedSources(q, p);
      assert SameLine(a, b);
    }
  }

  lemma RelInjective(a: Record, b: Record)
    requires a.Rel? && b.Rel? && SameLine(a, b) && !RelConfusable(a.src, b.src)
    ensures a == b
  {
    SameTag(a, b);
    if a.src != b.src {
      assert RelationsCollide(a.src, b.src);
      RelationsCollideIff(a.src, b.src);
    } else {
      SamePath(a.src, RelTail(a), b.src, RelTail(b));
      SameSourceInjective(a, b);
    }
  }

  // -- Headings ----------------------------------------------------------------------------------

  /** A heading line from the digest on, and from the sequence number on. */
  function FromDigest(r: Record): string
    requires r.Heading?
  {
    Hex16(r.tdigest) + SP + r.title
  }

  function FromSeqno(r: Record): string
    requires r.Heading?
  {
    Dec(r.seqno) + SP + FromDigest(r)
  }

  function FromLevel(r: Record): string
    requires r.Heading?
  {
    Dec(r.level) + SP + FromSeqno(r)
  }

  lemma SamePathHeadings(a: Record, b: Record)
    requires a.Heading? && b.Heading? && WellFormed(a) && WellFormed(b) && FromLevel(a) == FromLevel(b)
    requires a.path == b.path
    ensures a == b
  {
    FieldsFree(a.level, a.tdigest);
    FieldsFree(b.level, b.tdigest);
    FieldsFree(a.seqno, 0);
    FieldsFree(b.seqno, 0);
    CutFirst(' ', Dec(a.level), FromSeqno(a), Dec(b.level), FromSeqno(b));
    CutFirst(' ', Dec(a.seqno), FromDigest(a), Dec(b.seqno), FromDigest(b));
    CutFirst(' ', Hex16(a.tdigest), a.title, Hex16(b.tdigest), b.title);
    DecInjective(a.level, b.level);
    DecInjective(a.seqno, b.seqno);
    HexInjective(a.tdigest, b.tdigest);
  }

  function Pow10(n: nat): nat {
    if n == 0 then 1 else 10 * Pow10(n - 1)
  }

  lemma {:induction false} LongNumeral(n: nat)
    ensures |Dec(n)| > 0 && (|Dec(n)| > 1 ==> n >= Pow10(|Dec(n)| - 1))
  {
    if n >= 10 {
      LongNumeral(n / 10);
      if |Dec(n / 10)| == 1 {
        assert Pow10(1) == 10;
      }
    }
  }

  lemma FifteenZeros()
    ensures Pow10(15) == SIXTEEN_DIGITS
  {
    assert Pow10(5) == 100_000;
    assert Pow10(10) == 10 * 10 * 10 * 10 * 10 * Pow10(5);
    assert Pow10(15) == 10 * 10 * 10 * 10 * 10 * Pow10(10);
  }

  /** A number that prints like a digest has at least sixteen digits. */
  lemma PrintsLikeADigest(n: nat, digest: int)
    requires Dec(n) == Hex16(digest)
    ensures n >= SIXTEEN_DIGITS
  {
    LongNumeral(n);
    FifteenZeros();
  }

  lemma {:induction false} OneAndZeros(k: nat)
    ensures Pow10(k) > 0 && Pow16(k) > 0 && Dec(Pow10(k)) == HexDigits(Pow16(k), k + 1)
  {
    if k == 0 {
      assert HexDigits(1, 1) == HexDigits(0, 0) + [Digit(1)];
    } else {
      OneAndZeros(k - 1);
      AppendZero(Pow10(k - 1), Pow16(k - 1), k);
    }
  }

  lemma AppendZero(n: nat, v: nat, width: nat)
    requires n > 0
    ensures Dec(10 * n) == Dec(n) + [Digit(0)] && HexDigits(16 * v, width + 1) == HexDigits(v, width) + [Digit(0)]
  {
    assert 10 * n / 10 == n && 10 * n % 10 == 0;
    assert 16 * v / 16 == v && 16 * v % 16 == 0;
  }

  /** The digest that prints like the least such number. */
  lemma DigestLikeANumber() returns (digest: int)
    ensures Digest64(digest) && Hex16(digest) == Dec(SIXTEEN_DIGITS)
  {
    OneAndZeros(15);
    FifteenZeros();
    PowersOfSixteen();
    digest := Pow16(15);
    Remainder(digest, TWO64);
  }

  lemma LongerHeadingPath(a: Record, b: Record, limit: nat)
    requires a.Heading? && b.Heading? && WellFormed(a) && WellFormed(b) && a.seqno < limit && b.seqno < limit
    requires Body(a) == Body(b) && |a.path| < |b.path|
    ensures ContinuesMark(a.path, b.path, limit) || ContinuesLevel(a.path, b.path, limit)
  {
    FieldsFree(a.level, a.tdigest);
    FieldsFree(b.level, b.tdigest);
    FieldsFree(a.seqno, 0);
    FieldsFree(b.seqno, 0);
    var rest := LongerPath(a.path, FromLevel(a), b.path, FromLevel(b));
    var rest2 := FirstWord(rest, FromLevel(b), Dec(a.level), FromSeqno(a));
    if rest == Dec(a.level) && FromLevel(b) == FromSeqno(a) {
      CutFirst(' ', Dec(b.level), FromSeqno(b), Dec(a.seqno), FromDigest(a));
      CutFirst(' ', Dec(b.seqno), FromDigest(b), Hex16(a.tdigest), a.title);
      PrintsLikeADigest(b.seqno, a.tdigest);
    } else {
      var rest3 := FirstWord(rest2, FromLevel(b), Dec(a.seqno), FromDigest(a));
      if rest2 == Dec(a.seqno) && FromLevel(b) == FromDigest(a) {
        CutFirst(' ', Dec(b.level), FromSeqno(b), Hex16(a.tdigest), a.title);
        assert |Dec(b.level)| == |Hex16(a.tdigest)|;
        assert false;
      }
      var rest4 := FirstWord(rest3, FromLevel(b), Hex16(a.tdigest), a.title);
      OverMark(a.path, a.level, a.seqno, a.tdigest, rest3, rest4);
      assert Continues(a.path, Mark(a.level, a.seqno, a.tdigest), b.path);
    }
  }

  lemma OverMark(p: string, level: nat, n: nat, digest: int, rest3: string, rest4: string)
    requires rest3 == Hex16(digest) || rest3 == Hex16(digest) + SP + rest4
    ensures Continues(p, Mark(level, n, digest), p + SP + (Dec(level) + SP + (Dec(n) + SP + rest3)))
  {
    var m, rest := Mark(level, n, digest), Dec(level) + SP + (Dec(n) + SP + rest3);
    if rest3 == Hex16(digest) {
      Reassociate(Dec(level), Dec(n), Hex16(digest));
    } else {
      Reassociate(Dec(n), Hex16(digest), rest4);
      Reassociate(Dec(level), Dec(n) + SP + Hex16(digest), rest4);
      Reassociate(Dec(level), Dec(n), Hex16(digest));
      assert rest == m + SP + rest4;
    }
    ContinuesBy(p, m, rest, rest4);
  }

  lemma Reassociate(a: string, b: string, c: string)
    ensures a + SP + (b + SP + c) == a + SP + b + SP + c
  {
  }

  lemma MarkedBody(r: Record)
    requires r.Heading?
    ensures Body(r) == r.path + SP + (Mark(r.level, r.seqno, r.tdigest) + SP + r.title)
    ensures Body(r) == r.path + SP + FromLevel(r)
  {
    var l, n, h := Dec(r.level), Dec(r.seqno), Hex16(r.tdigest);
    Reassociate(n, h, r.title);
    Reassociate(l, n + SP + h, r.title);
    Reassociate(l, n, h);
  }

  lemma MarkSingle(level: nat, n: nat, digest: int)
    ensures SingleLine(Mark(level, n, digest))
  {
    FieldsFree(level, digest);
    FieldsFree(n, 0);
    JoinSingle(Dec(level), Dec(n));
    JoinSingle(Dec(level) + SP + Dec(n), Hex16(digest));
  }

  lemma ConfusedByMark(p: string, q: string, limit: nat) returns (a: Record, b: Record)
    requires SingleLine(p) && SingleLine(q) && ContinuesMark(p, q, limit)
    ensures HeadingOf(a, p, limit) && HeadingOf(b, q, limit) && SameLine(a, b)
  {
    var level: nat, n: nat, digest: int :|
      1 <= level <= 6 && n < limit && Digest64(digest) && Continues(p, Mark(level, n, digest), q);
    MarkSingle(1, 0, 0);
    var tail := Mark(1, 0, 0) + SP + "";
    var title := Continuation(p, Mark(level, n, digest), q, tail);
    a, b := Heading(p, level, n, digest, title), Heading(q, 1, 0, 0, "");
    MarkedBody(a);
    MarkedBody(b);
  }

  lemma ConfusedByLevel(p: string, q: string, limit: nat) returns (a: Record, b: Record)
    requires SingleLine(p) && SingleLine(q) && ContinuesLevel(p, q, limit)
    ensures HeadingOf(a, p, limit) && HeadingOf(b, q, limit) && SameLine(a, b)
  {
    var level: nat :| 1 <= level <= 6 && q == p + SP + Dec(level);
    var digest := DigestLikeANumber();
    var title := Hex16(0) + SP + "";
    FieldsFree(0, 0);
    JoinSingle(Hex16(0), "");
    a, b := Heading(p, level, 1, digest, title), Heading(q, 1, SIXTEEN_DIGITS, 0, "");
    MarkedBody(a);
    MarkedBody(b);
    assert FromSeqno(a) == Dec(1) + SP + (Dec(SIXTEEN_DIGITS) + SP + title);
    assert FromLevel(b) == FromSeqno(a);
    Reassociate(p, Dec(level), FromSeqno(a));
  }

  predicate HeadingOf(r: Record, path: string, limit: nat) {
    r.Heading? && r.path == path && r.seqno < limit
  }

  ghost predicate HeadingsCollide(p: string, q: string, limit: nat) {
    exists a: Record, b: Record :: SameLine(a, b) && HeadingOf(a, p, limit) && HeadingOf(b, q, limit)
  }

  /** Exactly when headings of two different paths, numbered below `limit`, can share a line. */
  lemma HeadingsCollideIff(p: string, q: string, limit: nat)
    requires SingleLine(p) && SingleLine(q) && p != q
    ensures HeadingsCollide(p, q, limit) <==> HeadingConfusable(p, q, limit)
  {
    if HeadingsCollide(p, q, limit) {
      var a: Record, b: Record :| SameLine(a, b) && HeadingOf(a, p, limit) && HeadingOf(b, q, limit);
      SameTag(a, b);
      if |p| == |q| {
        SamePath(p, FromLevel(a), q, FromLevel(b));
      } else if |p| < |q| {
        LongerHeadingPath(a, b, limit);
      } else {
        LongerHeadingPath(b, a, limit);
      }
    }
    if HeadingConfusable(p, q, limit) {
      HeadingsOfConfusedPaths(p, q, limit);
    }
  }

  lemma HeadingsOfConfusedPaths(p: string, q: string, limit: nat)
    requires SingleLine(p) && SingleLine(q) && HeadingConfusable(p, q, limit)
    ensures HeadingsCollide(p, q, limit)
  {
    var a: Record, b: Record;
    if ContinuesMark(p, q, limit) {
      a, b := ConfusedByMark(p, q, limit);
    } else if ContinuesMark(q, p, limit) {
      b, a := ConfusedByMark(q, p, limit);
    } else if ContinuesLevel(p, q, limit) {
      a, b := ConfusedByLevel(p, q, limit);
    } else {
      b, a := ConfusedByLevel(q, p, limit);
    }
    assert SameLine(a, b);
  }

  lemma HeadingInjective(a: Record, b: Record, limit: nat)
    requires a.Heading? && b.Heading? && SameLine(a, b) && a.seqno < limit && b.seqno < limit
    requires !HeadingConfusable(a.path, b.path, limit)
    ensures a == b
  {
    SameTag(a, b);
    if a.path != b.path {
      assert HeadingsCollide(a.path, b.path, limit);
      HeadingsCollideIff(a.path, b.path, limit);
    } else {
      SamePath(a.path, FromLevel(a), b.path, FromLevel(b));
      SamePathHeadings(a, b);
    }
  }

  // -- Lines and texts ---------------------------------------------------------------------------

  /** Headings numbered below `limit`; other records are not limited. */
  predicate Admitted(r: Record, limit: nat) {
    WellFormed(r) && (r.Heading? ==> r.seqno < limit)
  }

  /** Neither two relations nor two headings whose paths are confusable. */
  ghost predicate Distinguishable(a: Record, b: Record, limit: nat) {
    && (a.Rel? && b.Rel? ==> !RelConfusable(a.src, b.src))
    && (a.Heading? && b.Heading? ==> !HeadingConfusable(a.path, b.path, limit))
  }

  /** Different records print different lines. */
  lemma LineInjective(a: Record, b: Record, limit: nat)
    requires Admitted(a, limit) && Admitted(b, limit) && Distinguishable(a, b, limit)
    requires CanonLine(a) == CanonLine(b)
    ensures a == b
  {
    SameTag(a, b);
    match a
    case Doc(_, _, _, _, _, _) => DocInjective(a, b);
    case Term(_, _, _, _) => TermInjective(a, b);
    case SymRec(_, _, _, _, _) => SymInjective(a, b);
    case Heading(_, _, _, _, _) => HeadingInjective(a, b, limit);
    case Rel(_, _, _, _) => RelInjective(a, b);
    case Press(_, _, _) => PressInjective(a, b);
  }

  lemma {:induction false} TextInjective(a: seq<string>, b: seq<string>)
    requires Text(a) == Text(b)
    requires (forall l :: l in a ==> SingleLine(l)) && (forall l :: l in b ==> SingleLine(l))
    ensures a == b
  {
    if a != [] && b != [] {
      assert a[0] in a && b[0] in b;
      CutFirst('\n', a[0], Text(a[1..]), b[0], Text(b[1..]));
      TextInjective(a[1..], b[1..]);
      assert a == [a[0]] + a[1..] && b == [b[0]] + b[1..];
    }
  }

  ghost predicate AllAdmitted(records: seq<Record>, limit: nat) {
    forall r :: r in records ==> Admitted(r, limit)
  }

  /** Equal canonical texts come from the same version, snapshot id and record sequence. */
  lemma CanonicalInjective(v: Version, id: string, a: seq<Record>, w: Version, id': string, b: seq<Record>, limit: nat)
    requires SingleLine(id) && SingleLine(id') && AllAdmitted(a, limit) && AllAdmitted(b, limit)
    requires forall i :: 0 <= i < |a| && i < |b| ==> Distinguishable(a[i], b[i], limit)
    requires CanonicalText(v, id, a) == CanonicalText(w, id', b)
    ensures v == w && id == id' && a == b
  {
    HeaderLinesSingle(v, id, a);
    HeaderLinesSingle(w, id', b);
    TextInjective([Marker(v), "snapshot " + id] + Lines(a) + ["end"],
                  [Marker(w), "snapshot " + id'] + Lines(b) + ["end"]);
    SameHeader(v, id, Lines(a), w, id', Lines(b));
    LinesInjective(a, b, limit);
  }

  lemma SameHeader(v: Version, id: string, a: seq<string>, w: Version, id': string, b: seq<string>)
    requires [Marker(v), "snapshot " + id] + a + ["end"] == [Marker(w), "snapshot " + id'] + b + ["end"]
    ensures v == w && id == id' && a == b
  {
    var x, y := [Marker(v), "snapshot " + id] + a + ["end"], [Marker(w), "snapshot " + id'] + b + ["end"];
    assert x[0] == y[0] && x[1] == y[1];
    assert Marker(v)[|Marker(v)| - 1] == Marker(w)[|Marker(w)| - 1];
    assert id == x[1][9..] && id' == y[1][9..];
    assert a == x[2..|x| - 1] && b == y[2..|y| - 1];
  }

  lemma LinesInjective(a: seq<Record>, b: seq<Record>, limit: nat)
    requires AllAdmitted(a, limit) && AllAdmitted(b, limit) && Lines(a) == Lines(b)
    requires forall i :: 0 <= i < |a| && i < |b| ==> Distinguishable(a[i], b[i], limit)
    ensures a == b
  {
    assert |Lines(a)| == |a| && |Lines(b)| == |b|;
    forall i | 0 <= i < |a| ensures a[i] == b[i] {
      assert Lines(a)[i] == CanonLine(a[i]) && Lines(b)[i] == CanonLine(b[i]);
      assert a[i] in a && b[i] in b;
      LineInjective(a[i], b[i], limit);
    }
  }

  // -- Which sets of paths make the text injective -------------------------------------------------

  /** Records of files from one set of paths. */
  ghost predicate Over(records: seq<Record>, paths: set<string>, limit: nat) {
    AllAdmitted(records, limit) && forall r :: r in records ==> PathOf(r) in paths
  }

  function PathOf(r: Record): string {
    if r.Rel? then r.src else r.path
  }

  ghost predicate SameText(v: Version, id: string, a: seq<Record>, b: seq<Record>) {
    CanonicalText(v, id, a) == CanonicalText(v, id, b)
  }

  ghost predicate TextDetermines(v: Version, id: string, paths: set<string>, limit: nat) {
    forall a: seq<Record>, b: seq<Record> ::
      Over(a, paths, limit) && Over(b, paths, limit) && SameText(v, id, a, b) ==> a == b
  }

  ghost predicate Confusable(p: string, q: string, limit: nat) {
    RelConfusable(p, q) || HeadingConfusable(p, q, limit)
  }

  /** The text determines the records of a set of files exactly when no two of their paths are confusable. */
  lemma TextDeterminesIff(v: Version, id: string, paths: set<string>, limit: nat)
    requires SingleLine(id) && forall p :: p in paths ==> SingleLine(p)
    ensures TextDetermines(v, id, paths, limit) <==>
      forall p, q :: p in paths && q in paths ==> !Confusable(p, q, limit)
  {
    if forall p, q :: p in paths && q in paths ==> !Confusable(p, q, limit) {
      forall a: seq<Record>, b: seq<Record> | Over(a, paths, limit) && Over(b, paths, limit) && SameText(v, id, a, b)
        ensures a == b
      {
        forall i | 0 <= i < |a| && i < |b| ensures Distinguishable(a[i], b[i], limit) {
          assert a[i] in a && b[i] in b;
          assert !Confusable(PathOf(a[i]), PathOf(b[i]), limit);
        }
        CanonicalInjective(v, id, a, v, id, b, limit);
      }
    } else {
      var p, q :| p in paths && q in paths && Confusable(p, q, limit);
      ConfusedTexts(v, id, p, q, limit, paths);
    }
  }

  lemma NotConfusedWithItself(p: string, limit: nat)
    ensures !Confusable(p, p, limit)
  {
  }

  lemma ConfusedTexts(v: Version, id: string, p: string, q: string, limit: nat, paths: set<string>)
    requires p in paths && q in paths && SingleLine(p) && SingleLine(q) && Confusable(p, q, limit)
    ensures !TextDetermines(v, id, paths, limit)
  {
    NotConfusedWithItself(p, limit);
    var a, b := ConfusedRecords(p, q, limit);
    assert Lines([a]) == Lines([b]);
    assert SameText(v, id, [a], [b]);
    assert Over([a], paths, limit) && Over([b], paths, limit);
    assert [a][0] != [b][0];
  }

  lemma ConfusedRecords(p: string, q: string, limit: nat) returns (a: Record, b: Record)
    requires SingleLine(p) && SingleLine(q) && p != q && Confusable(p, q, limit)
    ensures SameLine(a, b) && Admitted(a, limit) && Admitted(b, limit) && PathOf(a) == p && PathOf(b) == q
  {
    if RelConfusable(p, q) {
      RelationsCollideIff(p, q);
      a, b :| SameLine(a, b) && a.Rel? && b.Rel? && a.src == p && b.src == q;
    } else {
      HeadingsCollideIff(p, q, limit);
      a, b :| SameLine(a, b) && HeadingOf(a, p, limit) && HeadingOf(b, q, limit);
    }
  }

  lemma HeaderLinesSingle(v: Version, id: string, a: seq<Record>)
    requires SingleLine(id) && forall r :: r in a ==> WellFormed(r)
    ensures forall l :: l in [Marker(v), "snapshot " + id] + Lines(a) + ["end"] ==> SingleLine(l)
  {
    forall l | l in Lines(a) ensures SingleLine(l) {
      var i :| 0 <= i < |a| && Lines(a)[i] == l;
      LineIsSingle(a[i]);
    }
  }
}
