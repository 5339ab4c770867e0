/** Symbol tokens of a file, of its lines, and the link seam scanned through overlapping windows. */
module Tokens {
  import opened Collections
  import opened Sorting
  import opened Digest

  const TOKEN_MAX := 32
  const TERMS_PER_FILE_CAP := 256

  predicate IsSymbol(b: char) {
    ClassifyByte(b) == 3
  }

  /** The symbol runs of `s` in order, when `cur` has already been read of the first one. */
  function Runs(s: Bytes, cur: Bytes): seq<Bytes> {
    if s == [] then (if cur == [] then [] else [cur])
    else if IsSymbol(s[0]) then Runs(s[1..], cur + [s[0]])
    else (if cur == [] then [] else [cur]) + Runs(s[1..], [])
  }

  function Short(runs: seq<Bytes>): seq<Bytes> {
    if runs == [] then []
    else (if |runs[0]| <= TOKEN_MAX then [runs[0]] else []) + Short(runs[1..])
  }

  lemma {:induction false} ShortConcat(a: seq<Bytes>, b: seq<Bytes>)
    ensures Short(a + b) == Short(a) + Short(b)
  {
    if a == [] {
      assert a + b == b;
    } else {
      ShortConcat(a[1..], b);
      assert (a + b)[1..] == a[1..] + b;
    }
  }

  lemma ShortRun(run: Bytes, rest: seq<Bytes>)
    ensures Short([run] + rest) == (if |run| <= TOKEN_MAX then [run] else []) + Short(rest)
    ensures Short((if run == [] then [] else [run]) + rest) ==
      (if 0 < |run| <= TOKEN_MAX then [run] else []) + Short(rest)
    ensures [run] + [] == [run]
  {
    assert ([run] + rest)[1..] == rest;
    assert [] + rest == rest;
  }

  // -- Runs are exactly the maximal symbol runs ------------------------------------------------

  predicate AllSymbols(s: Bytes) {
    forall k :: 0 <= k < |s| ==> IsSymbol(s[k])
  }

  ghost predicate MaximalRun(s: Bytes, i: int, j: int) {
    && 0 <= i < j <= |s| && AllSymbols(s[i..j])
    && (i > 0 ==> !IsSymbol(s[i - 1])) && (j < |s| ==> !IsSymbol(s[j]))
  }

  ghost predicate RunAt(s: Bytes, i: int, j: int, t: Bytes) {
    MaximalRun(s, i, j) && s[i..j] == t
  }

  /** `t` is a run of `s` exactly when it is a maximal stretch of symbol characters in it. */
  lemma RunsAreMaximal(s: Bytes, t: Bytes)
    ensures t in Runs(s, []) <==> exists i, j :: RunAt(s, i, j, t)
  {
    RunsAreMaximalFrom(s, 0, 0, t);
    assert s[0..] == s && s[0..0] == [];
  }

  /** The same from position `k`, inside a run that began at `b`. */
  lemma {:induction false} RunsAreMaximalFrom(s: Bytes, b: nat, k: nat, t: Bytes)
    requires b <= k <= |s| && AllSymbols(s[b..k]) && (b > 0 ==> !IsSymbol(s[b - 1]))
    ensures t in Runs(s[k..], s[b..k]) <==> exists i, j :: b <= i && RunAt(s, i, j, t)
    decreases |s| - k
  {
    if k == |s| {
      assert b < k ==> MaximalRun(s, b, k);
      SymbolsBetween(s, b, k);
      if b < k && t == s[b..k] { assert RunAt(s, b, k, t); }
    } else if IsSymbol(s[k]) {
      assert s[b..k] + [s[k]] == s[b..k + 1];
      assert s[k..][1..] == s[k + 1..];
      RunsAreMaximalFrom(s, b, k + 1, t);
    } else {
      assert s[k..][1..] == s[k + 1..];
      assert s[k + 1..k + 1] == [];
      RunsAreMaximalFrom(s, k + 1, k + 1, t);
      assert b < k ==> MaximalRun(s, b, k);
      if b < k && t == s[b..k] { assert RunAt(s, b, k, t); }
      forall i, j | b <= i && RunAt(s, i, j, t) ensures (i == b && j == k && b < k) || k + 1 <= i {
        RunBeforeGap(s, b, k, i, j);
      }
    }
  }

  lemma RunBeforeGap(s: Bytes, b: nat, k: nat, i: int, j: int)
    requires b <= k < |s| && AllSymbols(s[b..k]) && !IsSymbol(s[k]) && b <= i && MaximalRun(s, i, j)
    ensures (i == b && j == k && b < k) || k + 1 <= i
  {
    SymbolsBetween(s, b, k);
    SymbolsBetween(s, i, j);
  }

  lemma SymbolsBetween(s: Bytes, i: int, j: int)
    requires 0 <= i <= j <= |s| && AllSymbols(s[i..j])
    ensures forall m :: i <= m < j ==> IsSymbol(s[m])
  {
    forall m | i <= m < j ensures IsSymbol(s[m]) {
      assert s[i..j][m - i] == s[m];
    }
  }

  /** A non-symbol character separates the runs on its two sides. */
  lemma {:induction false} RunsSplit(a: Bytes, c: char, b: Bytes, cur: Bytes)
    requires !IsSymbol(c)
    ensures Runs(a + [c] + b, cur) == Runs(a, cur) + Runs(b, [])
  {
    if a == [] {
      assert a + [c] + b == [c] + b;
      assert ([c] + b)[1..] == b;
    } else {
      var next := if IsSymbol(a[0]) then cur + [a[0]] else [];
      RunsSplit(a[1..], c, b, next);
      assert (a + [c] + b)[1..] == a[1..] + [c] + b;
    }
  }

  // -- The two scanners ------------------------------------------------------------------------

  /** `ordered_symbol_tokens`: runs in line order, overlong ones dropped whole. */
  method OrderedSymbolTokens(line: Bytes) returns (out: seq<Bytes>)
    ensures out == Short(Runs(line, []))
  {
    out := [];
    var cur: Bytes, overlong := [], false;
    ghost var run: Bytes := [];
    assert line[0..] == line;
    for k := 0 to |line|
      invariant out + Short(Runs(line[k..], run)) == Short(Runs(line, []))
      invariant overlong == (|run| > TOKEN_MAX)
      invariant cur == if overlong then [] else run
    {
      var b := line[k];
      assert line[k..][1..] == line[k + 1..];
      ShortRun(run, Runs(line[k + 1..], []));
      if ClassifyByte(b) == 3 {
        run := run + [b];
        if !overlong {
          cur := cur + [b];
          if |cur| > TOKEN_MAX {
            cur, overlong := [], true;
          }
        }
      } else {
        if cur != [] {
          out := out + [cur];
          cur := [];
        }
        overlong := false;
        run := [];
      }
    }
    ShortRun(run, []);
    if cur != [] {
      out := out + [cur];
    }
  }

  /** The sorted distinct tokens of a file. */
  ghost function FileTokens(data: Bytes): seq<Bytes> {
    SortedSet(Members(Short(Runs(data, []))))
  }

  ghost function Capped(toks: seq<Bytes>): seq<Bytes> {
    if |toks| <= TERMS_PER_FILE_CAP then toks else toks[..TERMS_PER_FILE_CAP]
  }

  /** `_split_tokens`: the first 256 of the sorted distinct runs of length 1..32. */
  method SplitTokens(data: Bytes) returns (toks: seq<Bytes>)
    ensures toks == Capped(FileTokens(data))
  {
    var out: set<Bytes>, cur: Bytes, overlong := {}, [], false;
    ghost var run: Bytes := [];
    assert data[0..] == data;
    for k := 0 to |data|
      invariant out + Members(Short(Runs(data[k..], run))) == Members(Short(Runs(data, [])))
      invariant overlong == (|run| > TOKEN_MAX)
      invariant cur == if overlong then [] else run
    {
      var b := data[k];
      assert data[k..][1..] == data[k + 1..];
      ShortRun(run, Runs(data[k + 1..], []));
      if ClassifyByte(b) == 3 {
        run := run + [b];
        if !overlong {
          cur := cur + [b];
          if |cur| > TOKEN_MAX {
            cur, overlong := [], true;
          }
        }
      } else {
        if cur != [] {
          out := out + {cur};
          cur := [];
        }
        overlong := false;
        run := [];
      }
    }
    ShortRun(run, []);
    if cur != [] {
      out := out + {cur};
    }
    assert out == Members(Short(Runs(data, [])));
    toks := SortStrings(out);
    if |toks| > TERMS_PER_FILE_CAP {
      toks := toks[..TERMS_PER_FILE_CAP];
    }
  }

  // -- Lines -----------------------------------------------------------------------------------

  /** `data.split(b"\n")`. */
  function SplitLines(data: Bytes): seq<Bytes> {
    if data == [] then [[]]
    else
      var rest := SplitLines(data[1..]);
      if data[0] == '\n' then [[]] + rest else [[data[0]] + rest[0]] + rest[1..]
  }

  function StripCr(raw: Bytes): Bytes {
    if raw != [] && raw[|raw| - 1] == '\r' then raw[..|raw| - 1] else raw
  }

  predicate Blank(line: Bytes) {
    forall k :: 0 <= k < |line| ==> line[k] == ' ' || line[k] == '\t'
  }

  /** The tokens the line extractor sees: blank lines are skipped, a trailing CR is dropped. */
  function LineTokens(raw: Bytes): set<Bytes> {
    if Blank(StripCr(raw)) then {} else Members(Short(Runs(StripCr(raw), [])))
  }

  function AllLineTokens(lines: seq<Bytes>): set<Bytes> {
    if lines == [] then {} else LineTokens(lines[0]) + AllLineTokens(lines[1..])
  }

  lemma {:induction false} BlankHasNoRuns(line: Bytes)
    requires Blank(line)
    ensures Runs(line, []) == []
  {
    if line != [] {
      BlankHasNoRuns(line[1..]);
    }
  }

  lemma LineTokensAreRuns(raw: Bytes)
    ensures LineTokens(raw) == Members(Short(Runs(raw, [])))
  {
    var line := StripCr(raw);
    if line != raw {
      assert raw == line + ['\r'] + [];
      RunsSplit(line, '\r', [], []);
      assert Runs(raw, []) == Runs(line, []);
    }
    if Blank(line) {
      BlankHasNoRuns(line);
      assert Members(Short([])) == {};
    }
  }

  lemma {:induction false} FirstLine(data: Bytes)
    ensures var lines := SplitLines(data);
      && lines != []
      && (if |lines| == 1 then lines[0] == data
          else exists rest :: data == lines[0] + ['\n'] + rest && SplitLines(rest) == lines[1..] && |rest| < |data|)
  {
    if data != [] {
      FirstLine(data[1..]);
      var lines := SplitLines(data);
      var tail := SplitLines(data[1..]);
      assert data == [data[0]] + data[1..];
      if data[0] == '\n' {
        assert lines[1..] == tail;
        assert data == lines[0] + ['\n'] + data[1..];
      } else if |tail| == 1 {
        assert lines == [data];
      } else {
        var rest :| data[1..] == tail[0] + ['\n'] + rest && SplitLines(rest) == tail[1..] && |rest| < |data[1..]|;
        assert data == lines[0] + ['\n'] + rest;
      }
    }
  }

  /** Tokenising the whole file or each of its lines finds the same tokens. */
  lemma {:induction false} FileTokensAreLineTokens(data: Bytes)
    ensures Members(Short(Runs(data, []))) == AllLineTokens(SplitLines(data))
    decreases |data|
  {
    FirstLine(data);
    var lines := SplitLines(data);
    LineTokensAreRuns(lines[0]);
    if |lines| == 1 {
      assert lines[1..] == [];
    } else {
      var rest :| data == lines[0] + ['\n'] + rest && SplitLines(rest) == lines[1..] && |rest| < |data|;
      FileTokensAreLineTokens(rest);
      RunsSplit(lines[0], '\n', rest, []);
      ShortConcat(Runs(lines[0], []), Runs(rest, []));
    }
  }

  // -- Link seams ------------------------------------------------------------------------------

  predicate HasSeam(line: Bytes) {
    exists i :: 0 <= i < |line| - 1 && line[i] == ']' && line[i + 1] == '('
  }

  /** The three-state automaton of `contains_link`. */
  method ContainsLink(line: Bytes, length: nat) returns (found: bool)
    ensures found <==> HasSeam(if length <= |line| then line[..length] else line)
  {
    var n := if length <= |line| then length else |line|;
    var st := 0;
    for i := 0 to |line|
      invariant st in {0, 1, 2}
      invariant st == 2 <==> exists j :: 0 <= j < (if i <= n then i else n) - 1 && line[j] == ']' && line[j + 1] == '('
      invariant 0 < i <= n && st != 2 ==> (st == 1 <==> line[i - 1] == ']')
      invariant i == 0 ==> st == 0
    {
      var live := i < n;
      var close := live && line[i] == ']';
      var open := live && line[i] == '(';
      if st == 2 || (st == 1 && open) {
        if st == 1 { assert line[i - 1] == ']' && line[i - 1 + 1] == '('; }
        st := 2;
      } else if close {
        st := 1;
      } else {
        st := 0;
      }
    }
    assert line[..|line|] == line;
    var seen := line[..n];
    assert forall j :: 0 <= j < n ==> seen[j] == line[j];
    found := st == 2;
  }

  /** Windows of 64 bytes that overlap by one. */
  function KernelWindows(line: Bytes): seq<Bytes> {
    if |line| <= WINDOW then [line] else Strided(line, 0)
  }

  function Strided(line: Bytes, i: nat): seq<Bytes>
    decreases |line| - i
  {
    if i >= |line| then []
    else [line[i..if i + WINDOW <= |line| then i + WINDOW else |line|]] + Strided(line, i + WINDOW - 1)
  }

  lemma {:induction false} StridedWindow(line: Bytes, from: nat, k: nat)
    ensures k < |Strided(line, from)| <==> from + k * (WINDOW - 1) < |line|
    ensures k < |Strided(line, from)| ==>
      var i := from + k * (WINDOW - 1);
      Strided(line, from)[k] == line[i..if i + WINDOW <= |line| then i + WINDOW else |line|]
    decreases k
  {
    if k > 0 && from < |line| {
      StridedWindow(line, from + WINDOW - 1, k - 1);
    }
  }

  /** A seam of one window is a seam of the line ... */
  lemma WindowSeam(line: Bytes, k: nat)
    requires k < |Strided(line, 0)|
    ensures |Strided(line, 0)[k]| <= WINDOW
    ensures HasSeam(Strided(line, 0)[k]) ==> HasSeam(line)
  {
    StridedWindow(line, 0, k);
    var i, w := k * (WINDOW - 1), Strided(line, 0)[k];
    if HasSeam(w) {
      var j :| 0 <= j < |w| - 1 && w[j] == ']' && w[j + 1] == '(';
      assert line[i + j] == ']' && line[i + j + 1] == '(';
    }
  }

  /** ... and a seam of the line lies in one window, since windows overlap by one byte. */
  lemma LineSeam(line: Bytes, i: nat) returns (k: nat)
    requires i + 1 < |line| && line[i] == ']' && line[i + 1] == '('
    ensures k < |Strided(line, 0)| && HasSeam(Strided(line, 0)[k])
  {
    k := i / (WINDOW - 1);
    var j := i % (WINDOW - 1);
    assert i == k * (WINDOW - 1) + j;
    StridedWindow(line, 0, k);
    var w := Strided(line, 0)[k];
    assert w[j] == ']' && w[j + 1] == '(';
  }

  /** Every window fits the kernel, and some window holds a seam exactly when the unbounded line does. */
  lemma WindowsDecideSeams(line: Bytes)
    ensures forall w :: w in KernelWindows(line) ==> |w| <= WINDOW
    ensures (exists w :: w in KernelWindows(line) && HasSeam(w)) <==> HasSeam(line)
  {
    var ws := KernelWindows(line);
    if |line| <= WINDOW {
      assert ws[0] == line;
    } else {
      forall w | w in ws ensures |w| <= WINDOW && (HasSeam(w) ==> HasSeam(line)) {
        var k :| 0 <= k < |ws| && ws[k] == w;
        WindowSeam(line, k);
      }
      if HasSeam(line) {
        var i :| 0 <= i < |line| - 1 && line[i] == ']' && line[i + 1] == '(';
        var k := LineSeam(line, i);
        assert ws[k] in ws;
      }
    }
  }
}
