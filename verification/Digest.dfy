/** Leaf digests over 64-byte windows, their repair into whole-file statistics, and the Merkle tree.

  The byte step of FNV-1a and the pairwise combination are parameters: nothing here depends on
  what they compute, except where `combine(0, 0) = 0` is stated as a hypothesis.
 */
module Digest {
  /** Text is a sequence of bytes, one character per byte. */
  type Bytes = string

  type Step = (int, char) -> int
  type Combine = (int, int) -> int

  const WINDOW := 64

  datatype WinDigest = WinDigest(state: int, words: nat, lines: nat, open: bool)

  predicate IsSpace(b: char) {
    b == ' ' || b == '\n' || b == '\t' || b == '\r'
  }

  /** `classify_byte`: 1 newline, 2 other space, 3 symbol character, 0 anything else. */
  function ClassifyByte(b: char): int {
    if b == '\n' then 1
    else if b == ' ' || b == '\t' || b == '\r' then 2
    else if b == '_' || '0' <= b <= '9' || 'A' <= b <= 'Z' || 'a' <= b <= 'z' then 3
    else 0
  }

  function Absorb(step: Step, w: WinDigest, b: char): WinDigest {
    WinDigest(step(w.state, b),
              w.words + (if !w.open && !IsSpace(b) then 1 else 0),
              w.lines + (if b == '\n' then 1 else 0),
              !IsSpace(b))
  }

  /** One sequential scan: digest state, words, lines, and whether a word is still open. */
  function Scan(step: Step, w: WinDigest, s: Bytes): WinDigest {
    if s == [] then w else Absorb(step, Scan(step, w, s[..|s| - 1]), s[|s| - 1])
  }

  function Fold(step: Step, state: int, s: Bytes): int {
    if s == [] then state else step(Fold(step, state, s[..|s| - 1]), s[|s| - 1])
  }

  method LeafWindow(step: Step, state: int, chunk: Bytes, length: nat, openIn: bool) returns (st: WinDigest)
    ensures st == Scan(step, WinDigest(state, 0, 0, openIn), if length <= |chunk| then chunk[..length] else chunk)
  {
    var n := if length <= |chunk| then length else |chunk|;
    st := WinDigest(state, 0, 0, openIn);
    for i := 0 to |chunk|
      invariant st == Scan(step, WinDigest(state, 0, 0, openIn), chunk[..if i <= n then i else n])
    {
      var live := i < length;
      if live {
        assert chunk[..i + 1][..i] == chunk[..i];
        var wordStart := !st.open && !IsSpace(chunk[i]);
        st := WinDigest(step(st.state, chunk[i]), st.words + (if wordStart then 1 else 0),
                        st.lines + (if chunk[i] == '\n' then 1 else 0), !IsSpace(chunk[i]));
      }
    }
    assert chunk[..|chunk|] == chunk;
  }

  // -- Splitting a scan ------------------------------------------------------------------------

  lemma {:induction false} ScanSplit(step: Step, w: WinDigest, a: Bytes, b: Bytes)
    ensures Scan(step, w, a + b) == Scan(step, Scan(step, w, a), b)
  {
    if b == [] {
      assert a + b == a;
    } else {
      ScanSplit(step, w, a, b[..|b| - 1]);
      assert (a + b)[..|a + b| - 1] == a + b[..|b| - 1];
    }
  }

  lemma {:induction false} FoldSplit(step: Step, state: int, a: Bytes, b: Bytes)
    ensures Fold(step, state, a + b) == Fold(step, Fold(step, state, a), b)
  {
    if b == [] {
      assert a + b == a;
    } else {
      FoldSplit(step, state, a, b[..|b| - 1]);
      assert (a + b)[..|a + b| - 1] == a + b[..|b| - 1];
    }
  }

  /** The digest of a leaf does not depend on the statistics carried beside it. */
  lemma {:induction false} ScanStateIsFold(step: Step, w: WinDigest, s: Bytes)
    ensures Scan(step, w, s).state == Fold(step, w.state, s)
  {
    if s != [] {
      ScanStateIsFold(step, w, s[..|s| - 1]);
    }
  }

  /** Starting inside a word changes only the first word of the window; the window's own end is
      unaffected. */
  lemma {:induction false} OpenInMatters(step: Step, start: WinDigest, state: int, s: Bytes)
    ensures var t, u := Scan(step, start, s), Scan(step, WinDigest(state, 0, 0, false), s);
      && t.lines == start.lines + u.lines
      && t.words == start.words + u.words - (if start.open && s != [] && !IsSpace(s[0]) then 1 else 0)
      && (s != [] ==> t.open == u.open)
  {
    if s != [] {
      OpenInMatters(step, start, state, s[..|s| - 1]);
    }
  }

  // -- Windows ---------------------------------------------------------------------------------

  /** `[data[o:o+64] for o in range(0, len(data), 64)]`. */
  function Windows(data: Bytes): (r: seq<Bytes>)
    ensures forall w :: w in r ==> 0 < |w| <= WINDOW
    ensures data == [] <==> r == []
    decreases |data|
  {
    if data == [] then []
    else if |data| <= WINDOW then [data]
    else [data[..WINDOW]] + Windows(data[WINDOW..])
  }

  function Join(parts: seq<Bytes>): Bytes {
    if parts == [] then [] else Join(parts[..|parts| - 1]) + parts[|parts| - 1]
  }

  lemma {:induction false} JoinCons(first: Bytes, rest: seq<Bytes>)
    ensures Join([first] + rest) == first + Join(rest)
  {
    var all := [first] + rest;
    if rest != [] {
      JoinCons(first, rest[..|rest| - 1]);
      assert all[..|all| - 1] == [first] + rest[..|rest| - 1];
    } else {
      assert all[..0] == [];
    }
  }

  lemma {:induction false} WindowsJoin(data: Bytes)
    ensures Join(Windows(data)) == data
    decreases |data|
  {
    if |data| > WINDOW {
      WindowsJoin(data[WINDOW..]);
      JoinCons(data[..WINDOW], Windows(data[WINDOW..]));
    } else if data != [] {
      JoinCons(data, []);
    }
  }

  /** Window `i` is bytes `64 i` to `64 (i + 1)`, the last one what is left. */
  lemma {:induction false} WindowsAt(data: Bytes, i: nat)
    ensures |Windows(data)| == (|data| + 63) / 64
    ensures i < |Windows(data)| ==>
      64 * i < |data|
      && Windows(data)[i] == data[64 * i..if 64 * (i + 1) <= |data| then 64 * (i + 1) else |data|]
    decreases |data|
  {
    if |data| > WINDOW {
      var rest := data[WINDOW..];
      WindowsAt(rest, if i == 0 then 0 else i - 1);
      if 0 < i < |Windows(data)| {
        assert Windows(data)[i] == Windows(rest)[i - 1];
      }
    }
  }

  /** The leaf of one window, scanned on its own with no word open. */
  function LeafOf(step: Step, basis: int, chunk: Bytes): WinDigest {
    Scan(step, WinDigest(basis, 0, 0, false), chunk)
  }

  lemma NextWindow(step: Step, basis: int, windows: seq<Bytes>, k: nat)
    requires k < |windows| && windows[k] != []
    ensures var before := Scan(step, WinDigest(basis, 0, 0, false), Join(windows[..k]));
      var after := Scan(step, WinDigest(basis, 0, 0, false), Join(windows[..k + 1]));
      var leaf := LeafOf(step, basis, windows[k]);
      && after.lines == before.lines + leaf.lines && after.open == leaf.open
      && after.words == before.words + leaf.words
                        - (if before.open && ClassifyByte(windows[k][0]) !in [1, 2] then 1 else 0)
  {
    assert windows[..k + 1][..k] == windows[..k];
    var before := Scan(step, WinDigest(basis, 0, 0, false), Join(windows[..k]));
    ScanSplit(step, WinDigest(basis, 0, 0, false), Join(windows[..k]), windows[k]);
    OpenInMatters(step, before, basis, windows[k]);
  }

  /** The carried flag repairs the one overcount per window boundary: independent leaves give the
      word and line counts of one sequential scan. */
  method AssembleCounts(step: Step, basis: int, windows: seq<Bytes>, leaves: seq<WinDigest>)
    returns (words: nat, lines: nat)
    requires |leaves| == |windows| && forall w :: w in windows ==> w != []
    requires forall k :: 0 <= k < |windows| ==> leaves[k] == LeafOf(step, basis, windows[k])
    ensures var whole := Scan(step, WinDigest(basis, 0, 0, false), Join(windows));
      words == whole.words && lines == whole.lines
  {
    words, lines := 0, 0;
    for k := 0 to |windows|
      invariant var whole := Scan(step, WinDigest(basis, 0, 0, false), Join(windows[..k]));
        && words == whole.words && lines == whole.lines
        && (k > 0 ==> whole.open == leaves[k - 1].open)
        && (k == 0 ==> !whole.open)
    {
      assert windows[k] in windows;
      NextWindow(step, basis, windows, k);
      var w: int := leaves[k].words;
      if k > 0 && leaves[k - 1].open && ClassifyByte(windows[k][0]) !in [1, 2] {
        w := w - 1;
      }
      words := words + w;
      lines := lines + leaves[k].lines;
    }
    assert windows[..|windows|] == windows;
  }

  /** Chunked folding is one fold: `fold_bytes` over any text. */
  method FoldBytes(step: Step, basis: int, data: Bytes) returns (state: int)
    ensures state == Fold(step, basis, data)
  {
    state := basis;
    var off := 0;
    while off < |data|
      invariant off <= |data| && state == Fold(step, basis, data[..off])
    {
      var end := if off + WINDOW <= |data| then off + WINDOW else |data|;
      FoldSplit(step, basis, data[..off], data[off..end]);
      assert data[..off] + data[off..end] == data[..end];
      state := Fold(step, state, data[off..end]);
      off := end;
    }
    assert data[..|data|] == data;
  }

  // -- The tree --------------------------------------------------------------------------------

  /** One level: adjacent pairs, an odd tail pairs with 0. */
  function PairUp(combine: Combine, level: seq<int>): (r: seq<int>)
    ensures |r| == (|level| + 1) / 2
  {
    if level == [] then []
    else if |level| == 1 then [combine(level[0], 0)]
    else [combine(level[0], level[1])] + PairUp(combine, level[2..])
  }

  function Levels(combine: Combine, level: seq<int>): int
    requires level != []
    decreases |level|
  {
    if |level| == 1 then level[0] else Levels(combine, PairUp(combine, level))
  }

  method OneLevel(combine: Combine, level: seq<int>) returns (next: seq<int>)
    ensures next == PairUp(combine, level)
  {
    next := [];
    var i := 0;
    while i < |level|
      invariant 0 <= i <= |level| + 1
      invariant next + PairUp(combine, if i <= |level| then level[i..] else []) == PairUp(combine, level)
    {
      ghost var rest := level[i..];
      assert |rest| >= 2 ==> rest[2..] == level[i + 2..];
      next := next + [combine(level[i], if i + 1 < |level| then level[i + 1] else 0)];
      i := i + 2;
    }
  }

  method TreeCombine(combine: Combine, empty: int, leaves: seq<int>) returns (digest: int)
    ensures digest == if leaves == [] then empty else Levels(combine, leaves)
  {
    if leaves == [] { return empty; }
    var level := leaves;
    while |level| > 1
      invariant level != [] && Levels(combine, level) == Levels(combine, leaves)
      decreases |level|
    {
      level := OneLevel(combine, level);
    }
    digest := level[0];
  }

  function Pow2(h: nat): nat {
    if h == 0 then 1 else 2 * Pow2(h - 1)
  }

  /** The balanced tree of height `h`: a missing right half contributes 0. */
  function Balanced(combine: Combine, leaves: seq<int>, h: nat): int
    requires 0 < |leaves| <= Pow2(h)
  {
    if h == 0 then leaves[0]
    else if |leaves| <= Pow2(h - 1) then combine(Balanced(combine, leaves, h - 1), 0)
    else combine(Balanced(combine, leaves[..Pow2(h - 1)], h - 1), Balanced(combine, leaves[Pow2(h - 1)..], h - 1))
  }

  lemma {:induction false} PairUpSplit(combine: Combine, a: seq<int>, b: seq<int>)
    requires |a| % 2 == 0
    ensures PairUp(combine, a + b) == PairUp(combine, a) + PairUp(combine, b)
  {
    if a == [] {
      assert a + b == b;
    } else {
      assert |a| >= 2;
      PairUpSplit(combine, a[2..], b);
      var whole := a + b;
      assert whole[2..] == a[2..] + b && whole[0] == a[0] && whole[1] == a[1];
      assert PairUp(combine, whole) == [combine(a[0], a[1])] + PairUp(combine, whole[2..]);
      assert PairUp(combine, a) == [combine(a[0], a[1])] + PairUp(combine, a[2..]);
    }
  }

  lemma BalancedTwo(combine: Combine, a: seq<int>, b: seq<int>, h: nat)
    requires |a| == Pow2(h) && 0 < |b| <= Pow2(h)
    ensures Balanced(combine, a + b, h + 1) == combine(Balanced(combine, a, h), Balanced(combine, b, h))
  {
    assert (a + b)[..Pow2(h)] == a && (a + b)[Pow2(h)..] == b;
  }

  /** A level that fits the left half of the tree. */
  lemma PairUpLeft(combine: Combine, leaves: seq<int>, h: nat)
    requires h > 0 && 0 < |leaves| <= Pow2(h)
    requires Balanced(combine, PairUp(combine, leaves), h - 1) == Balanced(combine, leaves, h)
    ensures Balanced(combine, PairUp(combine, leaves), h) == Balanced(combine, leaves, h + 1)
  {
    assert |PairUp(combine, leaves)| <= Pow2(h - 1);
    assert Balanced(combine, leaves, h + 1) == combine(Balanced(combine, leaves, h), 0);
  }

  /** A level that reaches into the right half. */
  lemma BalancedBoth(combine: Combine, pa: seq<int>, pb: seq<int>, a: seq<int>, b: seq<int>, k: nat)
    requires |pa| == Pow2(k) && 0 < |pb| <= Pow2(k) && |a| == Pow2(k + 1) && 0 < |b| <= Pow2(k + 1)
    requires Balanced(combine, pa, k) == Balanced(combine, a, k + 1)
    requires Balanced(combine, pb, k) == Balanced(combine, b, k + 1)
    ensures Balanced(combine, pa + pb, k + 1) == Balanced(combine, a + b, k + 2)
  {
    BalancedTwo(combine, pa, pb, k);
    BalancedTwo(combine, a, b, k + 1);
  }

  lemma HalfLength(combine: Combine, level: seq<int>, k: nat)
    ensures 0 < |level| <= Pow2(k + 1) ==> 0 < |PairUp(combine, level)| <= Pow2(k)
    ensures |level| == Pow2(k + 1) ==> |level| % 2 == 0 && |PairUp(combine, level)| == Pow2(k)
  {
    assert Pow2(k + 1) == 2 * Pow2(k);
  }

  lemma {:induction false} PairUpLowers(combine: Combine, leaves: seq<int>, h: nat)
    requires 0 < |leaves| <= Pow2(h + 1)
    ensures |PairUp(combine, leaves)| <= Pow2(h)
    ensures Balanced(combine, PairUp(combine, leaves), h) == Balanced(combine, leaves, h + 1)
    decreases h
  {
    HalfLength(combine, leaves, h);
    if h == 0 {
      PairUpBottom(combine, leaves);
    } else if |leaves| <= Pow2(h) {
      PairUpLowers(combine, leaves, h - 1);
      PairUpLeft(combine, leaves, h);
    } else {
      PairUpHalves(combine, leaves, h - 1);
    }
  }

  lemma {:induction false} PairUpHalves(combine: Combine, leaves: seq<int>, k: nat)
    requires Pow2(k + 1) < |leaves| <= 2 * Pow2(k + 1) && |PairUp(combine, leaves)| <= Pow2(k + 1)
    ensures Balanced(combine, PairUp(combine, leaves), k + 1) == Balanced(combine, leaves, k + 2)
    decreases k + 1, 0
  {
    var a, b := leaves[..Pow2(k + 1)], leaves[Pow2(k + 1)..];
    HalfLength(combine, a, k);
    HalfLength(combine, b, k);
    PairUpLowers(combine, a, k);
    PairUpLowers(combine, b, k);
    PairUpSplit(combine, a, b);
    assert leaves == a + b;
    BalancedBoth(combine, PairUp(combine, a), PairUp(combine, b), a, b, k);
  }

  lemma PairUpBottom(combine: Combine, leaves: seq<int>)
    requires 0 < |leaves| <= 2
    ensures Balanced(combine, PairUp(combine, leaves), 0) == Balanced(combine, leaves, 1)
  {
    assert Pow2(0) == 1;
    if |leaves| == 2 {
      assert leaves[1..][0] == leaves[1];
    }
  }

  /** Reducing level by level computes the balanced tree of the least sufficient height. */
  lemma {:induction false} LevelsAreBalanced(combine: Combine, leaves: seq<int>, h: nat)
    requires 0 < |leaves| <= Pow2(h) && (h > 0 ==> |leaves| > Pow2(h - 1))
    ensures Levels(combine, leaves) == Balanced(combine, leaves, h)
    decreases h
  {
    if h > 0 {
      PairUpLowers(combine, leaves, h - 1);
      LevelsAreBalanced(combine, PairUp(combine, leaves), h - 1);
    }
  }

  function Zeros(n: nat): seq<int> {
    seq(n, i => 0)
  }

  lemma {:induction false} BalancedZeros(combine: Combine, h: nat)
    requires combine(0, 0) == 0
    ensures |Zeros(Pow2(h))| == Pow2(h) > 0 && Balanced(combine, Zeros(Pow2(h)), h) == 0
  {
    if h > 0 {
      BalancedZeros(combine, h - 1);
      assert Zeros(Pow2(h))[..Pow2(h - 1)] == Zeros(Pow2(h - 1));
      assert Zeros(Pow2(h))[Pow2(h - 1)..] == Zeros(Pow2(h - 1));
    }
  }

  /** If two zeros combine to zero, odd tails amount to padding the leaves with zeros. */
  lemma {:induction false} OddTailsArePadding(combine: Combine, leaves: seq<int>, h: nat)
    requires combine(0, 0) == 0 && 0 < |leaves| <= Pow2(h)
    ensures Balanced(combine, leaves, h) == Balanced(combine, leaves + Zeros(Pow2(h) - |leaves|), h)
  {
    if h == 0 {
      assert leaves + Zeros(0) == leaves;
    } else {
      var half := Pow2(h - 1);
      var padded := leaves + Zeros(Pow2(h) - |leaves|);
      if |leaves| <= half {
        OddTailsArePadding(combine, leaves, h - 1);
        BalancedZeros(combine, h - 1);
        assert padded[..half] == leaves + Zeros(half - |leaves|);
        assert padded[half..] == Zeros(half);
      } else {
        OddTailsArePadding(combine, leaves[half..], h - 1);
        assert padded[..half] == leaves[..half];
        assert padded[half..] == leaves[half..] + Zeros(half - |leaves[half..]|);
      }
    }
  }

  const MASK64 := 0x1_0000_0000_0000_0000

  /** `combine` of the digest module, in wrapping 64-bit arithmetic. */
  function CombineU64(left: int, right: int): int {
    var mixed := (left * 1099511628211 + right * 16777619) % MASK64;
    (mixed + mixed / 0x8000_0000) % MASK64
  }

  /** The actual `combine` meets the padding hypothesis. */
  lemma TreeIsZeroPadded(leaves: seq<int>, h: nat)
    requires 0 < |leaves| <= Pow2(h) && (h > 0 ==> |leaves| > Pow2(h - 1))
    ensures Levels(CombineU64, leaves) == Balanced(CombineU64, leaves + Zeros(Pow2(h) - |leaves|), h)
  {
    LevelsAreBalanced(CombineU64, leaves, h);
    OddTailsArePadding(CombineU64, leaves, h);
  }

  // -- Files -----------------------------------------------------------------------------------

  function FoldWindows(step: Step, basis: int, windows: seq<Bytes>): seq<int> {
    seq(|windows|, i requires 0 <= i < |windows| => Fold(step, basis, windows[i]))
  }

  /** `tree_digest_windows`: the digest of a whole byte string. */
  function TreeDigest(step: Step, combine: Combine, basis: int, data: Bytes): int {
    if data == [] then basis else Levels(combine, FoldWindows(step, basis, Windows(data)))
  }

  datatype FileStats = FileStats(digest: int, words: nat, lines: nat)

  /** What a sequential reader would record for one file. */
  function StatsOf(step: Step, combine: Combine, basis: int, data: Bytes): FileStats {
    var whole := Scan(step, WinDigest(basis, 0, 0, false), data);
    FileStats(TreeDigest(step, combine, basis, data), whole.words, whole.lines)
  }

  /** Assembly from independent leaves gives the sequential statistics of the file. */
  method AssembleFile(step: Step, combine: Combine, basis: int, data: Bytes, leaves: seq<WinDigest>)
    returns (stats: FileStats)
    requires |leaves| == |Windows(data)|
    requires forall k :: 0 <= k < |leaves| ==> leaves[k] == LeafOf(step, basis, Windows(data)[k])
    ensures stats == StatsOf(step, combine, basis, data)
  {
    var windows := Windows(data);
    if |windows| == 0 { return FileStats(basis, 0, 0); }
    var words, lines := AssembleCounts(step, basis, windows, leaves);
    WindowsJoin(data);
    var states := StatesOf(step, basis, windows, leaves);
    var digest := TreeCombine(combine, basis, states);
    stats := FileStats(digest, words, lines);
  }

  method StatesOf(step: Step, basis: int, windows: seq<Bytes>, leaves: seq<WinDigest>) returns (states: seq<int>)
    requires |leaves| == |windows|
    requires forall k :: 0 <= k < |windows| ==> leaves[k] == LeafOf(step, basis, windows[k])
    ensures states == FoldWindows(step, basis, windows)
  {
    states := [];
    for k := 0 to |windows|
      invariant states == FoldWindows(step, basis, windows)[..k]
    {
      ScanStateIsFold(step, WinDigest(basis, 0, 0, false), windows[k]);
      states := states + [leaves[k].state];
    }
  }
}
