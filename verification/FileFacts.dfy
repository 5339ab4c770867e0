/** What the statistics and the terms of a file are, said of its bytes alone. */
module FileFacts {
  import opened Collections
  import opened Sorting
  import opened Digest
  import opened Tokens
  import opened FileBuild

  // -- Words and lines ------------------------------------------------------------------------------------

  /** Tab, line feed, carriage return, blank. */
  predicate Blank(b: char) {
    b as int == 9 || b as int == 10 || b as int == 13 || b as int == 32
  }

  /** `s[i..j]` is a longest stretch without blanks. */
  ghost predicate WordSpan(s: Bytes, i: nat, j: nat) {
    && i < j <= |s| && (forall m :: i <= m < j ==> !Blank(s[m]))
    && (i > 0 ==> Blank(s[i - 1])) && (j < |s| ==> Blank(s[j]))
  }

  ghost predicate WordBegins(s: Bytes, i: nat) {
    exists j :: WordSpan(s, i, j)
  }

  predicate AfterBlank(s: Bytes, i: nat) {
    i < |s| && !Blank(s[i]) && (i == 0 || Blank(s[i - 1]))
  }

  lemma {:induction false} WordEnds(s: Bytes, i: nat, k: nat) returns (j: nat)
    requires i < k <= |s| && forall m :: i <= m < k ==> !Blank(s[m])
    ensures k <= j <= |s| && (forall m :: i <= m < j ==> !Blank(s[m])) && (j < |s| ==> Blank(s[j]))
    decreases |s| - k
  {
    j := k;
    if k < |s| && !Blank(s[k]) {
      j := WordEnds(s, i, k + 1);
    }
  }

  lemma BeginsAfterBlank(s: Bytes, i: nat)
    ensures WordBegins(s, i) <==> AfterBlank(s, i)
  {
    if AfterBlank(s, i) {
      var j := WordEnds(s, i, i + 1);
      assert WordSpan(s, i, j);
    }
  }

  ghost function WordStarts(s: Bytes): set<nat> {
    set i | 0 <= i < |s| && WordBegins(s, i)
  }

  ghost function LineEnds(s: Bytes): set<nat> {
    set i | 0 <= i < |s| && s[i] as int == 10
  }

  lemma StartsSnoc(s: Bytes)
    requires s != []
    ensures var n: nat := |s| - 1;
      WordStarts(s) == WordStarts(s[..n]) + (if AfterBlank(s, n) then {n} else {}) && n !in WordStarts(s[..n])
  {
    var n: nat := |s| - 1;
    var init := s[..n];
    forall i: nat | i < |s| ensures WordBegins(s, i) <==> AfterBlank(s, i) {
      BeginsAfterBlank(s, i);
    }
    forall i: nat | i < n ensures WordBegins(init, i) <==> AfterBlank(s, i) {
      BeginsAfterBlank(init, i);
    }
  }

  lemma EndsSnoc(s: Bytes)
    requires s != []
    ensures var n: nat := |s| - 1;
      LineEnds(s) == LineEnds(s[..n]) + (if s[n] as int == 10 then {n} else {}) && n !in LineEnds(s[..n])
  {
  }

  /** A scan counts the stretches without blanks, and the line feeds. */
  lemma {:induction false} ScanCounts(step: Step, basis: int, s: Bytes)
    ensures var w := Scan(step, WinDigest(basis, 0, 0, false), s);
      && w.words == |WordStarts(s)| && w.lines == |LineEnds(s)|
      && (w.open <==> s != [] && !Blank(s[|s| - 1]))
  {
    if s == [] {
      assert WordStarts(s) == {} && LineEnds(s) == {};
    } else {
      ScanCounts(step, basis, s[..|s| - 1]);
      StartsSnoc(s);
      EndsSnoc(s);
    }
  }

  /** The statistics of a file: as many words as longest stretches without blanks, as many lines as line feeds. */
  lemma StatsCount(k: Kernels, data: Bytes)
    ensures var stats := StatsOf(k.step, k.combine, k.basis, data);
      stats.words == |WordStarts(data)| && stats.lines == |LineEnds(data)|
  {
    ScanCounts(k.step, k.basis, data);
  }

  // -- Terms ---------------------------------------------------------------------------------------------------

  predicate DigitByte(b: char) {
    48 <= b as int <= 57
  }

  /** Underscore, digits, upper-case and lower-case letters. */
  predicate SymbolByte(b: char) {
    b as int == 95 || DigitByte(b) || 65 <= b as int <= 90 || 97 <= b as int <= 122
  }

  /** `s[i..j]` is a longest stretch of symbol bytes. */
  predicate SymbolSpan(s: Bytes, i: nat, j: nat) {
    && i < j <= |s| && (forall m :: i <= m < j ==> SymbolByte(s[m]))
    && (i > 0 ==> !SymbolByte(s[i - 1])) && (j < |s| ==> !SymbolByte(s[j]))
  }

  /** The texts of the longest stretches of at most 32 symbol bytes. */
  ghost function ShortSpans(s: Bytes): set<Bytes> {
    set i: nat, j: nat | i < |s| && j <= |s| && SymbolSpan(s, i, j) && j - i <= 32 :: s[i..j]
  }

  lemma SpanIsRun(s: Bytes, i: nat, j: nat)
    ensures SymbolSpan(s, i, j) <==> MaximalRun(s, i, j)
  {
    assert forall b :: SymbolByte(b) <==> IsSymbol(b);
    if MaximalRun(s, i, j) {
      SymbolsBetween(s, i, j);
    }
  }

  lemma {:induction false} ShortMembers(runs: seq<Bytes>, t: Bytes)
    ensures t in Short(runs) <==> t in runs && |t| <= TOKEN_MAX
  {
    if runs != [] {
      ShortMembers(runs[1..], t);
      assert runs == [runs[0]] + runs[1..];
    }
  }

  lemma SpansAreTokens(s: Bytes)
    ensures ShortSpans(s) == Members(Short(Runs(s, [])))
  {
    forall t ensures t in ShortSpans(s) <==> t in Short(Runs(s, [])) {
      ShortMembers(Runs(s, []), t);
      RunsAreMaximal(s, t);
      if t in ShortSpans(s) {
        var i: nat, j: nat :| i < |s| && j <= |s| && SymbolSpan(s, i, j) && j - i <= 32 && s[i..j] == t;
        SpanIsRun(s, i, j);
        assert RunAt(s, i, j, t);
      }
      if t in Short(Runs(s, [])) {
        var i, j :| RunAt(s, i, j, t);
        SpanIsRun(s, i, j);
        assert SymbolSpan(s, i, j);
      }
    }
  }

  lemma {:induction false} IdentifiedMembers(k: Kernels, toks: seq<Bytes>, t: TokenId)
    ensures t in Identified(k, toks) <==> t.token in toks && ValidToken(t.token) && t.tid == TokenDigest(k, t.token)
  {
    if toks != [] {
      IdentifiedMembers(k, toks[..|toks| - 1], t);
      assert toks == toks[..|toks| - 1] + [toks[|toks| - 1]];
    }
  }

  /** The members of a sorted set before one of them. */
  ghost function Before(s: set<Bytes>, t: Bytes): set<Bytes> {
    set x | x in s && x != t && LexLe(x, t)
  }

  lemma PlaceOf(s: set<Bytes>, t: Bytes, i: nat)
    requires i < |SortedSet(s)| && SortedSet(s)[i] == t
    ensures |Before(s, t)| == i
  {
    var r := SortedSet(s);
    LexTotalOrder();
    forall x ensures x in Before(s, t) <==> x in r[..i] {
      if x in Before(s, t) {
        var j :| 0 <= j < |r| && r[j] == x;
        assert j < i;
        assert r[..i][j] == x;
      }
      if x in r[..i] {
        var j :| 0 <= j < i && r[j] == x;
        assert r[j] in r;
      }
    }
    assert Before(s, t) == Members(r[..i]);
    DistinctMembers(r[..i]);
  }

  lemma {:induction false} DistinctMembers(r: seq<Bytes>)
    requires NoRepeats(r)
    ensures |Members(r)| == |r|
  {
    if r != [] {
      var init := r[..|r| - 1];
      DistinctMembers(init);
      assert Members(r) == Members(init) + {r[|r| - 1]};
    } else {
      assert Members(r) == {};
    }
  }

  lemma CappedMembers(s: set<Bytes>, t: Bytes)
    ensures t in Capped(SortedSet(s)) <==> t in s && |Before(s, t)| < TERMS_PER_FILE_CAP
  {
    var r := SortedSet(s);
    if t in s {
      assert t in r;
      var i :| 0 <= i < |r| && r[i] == t;
      PlaceOf(s, t, i);
      if i < TERMS_PER_FILE_CAP {
        assert Capped(r)[i] == t;
      }
      if t in Capped(r) {
        var j :| 0 <= j < |Capped(r)| && Capped(r)[j] == t;
        PlaceOf(s, t, j);
      }
    }
  }

  /** The terms of a file: the longest stretches of symbol bytes that have 1 to 32 of them, do not begin with a digit,
      and have fewer than 256 such stretches before them in byte order - those that begin with a digit counted. */
  lemma TermsExact(k: Kernels, data: Bytes, t: TokenId)
    ensures t in TermsOf(k, data) <==>
      && t.token in ShortSpans(data) && !DigitByte(t.token[0]) && |Before(ShortSpans(data), t.token)| < 256
      && t.tid == Fold(k.step, k.basis, t.token)
  {
    SpansAreTokens(data);
    IdentifiedMembers(k, Capped(FileTokens(data)), t);
    CappedMembers(ShortSpans(data), t.token);
    if t.token in ShortSpans(data) {
      SpansAreSymbols(data, t.token);
    }
  }

  lemma SpansAreSymbols(s: Bytes, t: Bytes)
    requires t in ShortSpans(s)
    ensures 0 < |t| <= 32 && AllSymbols(t)
  {
    var i: nat, j: nat :| i < |s| && j <= |s| && SymbolSpan(s, i, j) && j - i <= 32 && s[i..j] == t;
    assert forall m :: 0 <= m < |t| ==> t[m] == s[i + m];
  }

  /** Terms come in byte order, none twice. */
  lemma TermsInOrder(k: Kernels, data: Bytes)
    ensures var terms := TermsOf(k, data);
      forall i, j :: 0 <= i < j < |terms| ==>
        LexLe(terms[i].token, terms[j].token) && terms[i].token != terms[j].token
  {
    var toks := Capped(FileTokens(data));
    IdentifiedFacts(k, toks);
    IdentifiedDistinct(k, toks);
  }

  lemma {:induction false} IdentifiedDistinct(k: Kernels, toks: seq<Bytes>)
    requires NoRepeats(toks)
    ensures var ids := Identified(k, toks); forall i, j :: 0 <= i < j < |ids| ==> ids[i].token != ids[j].token
  {
    if toks != [] {
      var init := toks[..|toks| - 1];
      IdentifiedDistinct(k, init);
      var before := Identified(k, init);
      forall i | 0 <= i < |before| ensures before[i].token != toks[|toks| - 1] {
        IdentifiedMembers(k, init, before[i]);
      }
    }
  }
}
