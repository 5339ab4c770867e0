/** The canonical text of an index: record lines, their injectivity, and the place of v1 inside v2. */
module Canonical {
  // -- Fields ----------------------------------------------------------------------------------

  const TWO64 := 0x1_0000_0000_0000_0000

  function Digit(d: nat): char
    requires d < 16
  {
    "0123456789abcdef"[d]
  }

  /** Exactly `width` lower-case hexadecimal digits. */
  function HexDigits(v: nat, width: nat): (r: string)
    ensures |r| == width
  {
    if width == 0 then "" else HexDigits(v / 16, width - 1) + [Digit(v % 16)]
  }

  /** `hex16`: the low 64 bits. */
  function Hex16(v: int): string {
    HexDigits(v % TWO64, 16)
  }

  function DigitValue(c: char): nat {
    if '0' <= c <= '9' then (c - '0') as nat else if 'a' <= c <= 'f' then (c - 'a') as nat + 10 else 0
  }

  /** `unhex16`: `int(s, 16)` on lower-case digits. */
  function Unhex(s: string): nat {
    if s == "" then 0 else Unhex(s[..|s| - 1]) * 16 + DigitValue(s[|s| - 1])
  }

  function Pow16(n: nat): nat {
    if n == 0 then 1 else 16 * Pow16(n - 1)
  }

  lemma {:induction false} UnhexDigits(v: nat, width: nat)
    requires v < Pow16(width)
    ensures Unhex(HexDigits(v, width)) == v
  {
    if width > 0 {
      UnhexDigits(v / 16, width - 1);
      var r := HexDigits(v, width);
      assert r[..|r| - 1] == HexDigits(v / 16, width - 1);
    }
  }

  lemma PowersOfSixteen()
    ensures Pow16(16) == TWO64 && Pow16(15) * 16 == TWO64
  {
    assert Pow16(4) == 65536;
    assert Pow16(8) == 16 * 16 * 16 * 16 * Pow16(4);
    assert Pow16(12) == 16 * 16 * 16 * 16 * Pow16(8);
    assert Pow16(16) == 16 * 16 * 16 * 16 * Pow16(12);
  }

  /** Reading back a printed digest gives it modulo 2^64. */
  lemma UnhexHex16(v: int)
    ensures Unhex(Hex16(v)) == v % TWO64
  {
    PowersOfSixteen();
    UnhexDigits(v % TWO64, 16);
  }

  lemma Remainder(v: int, m: int)
    requires m > 0
    ensures (v % m) % m == v % m
    ensures v % m == v <==> 0 <= v < m
  {
  }

  /** Decimal digits of a natural number. */
  function Dec(n: nat): string {
    if n < 10 then [Digit(n)] else Dec(n / 10) + [Digit(n % 10)]
  }

  function Undec(s: string): nat {
    if s == "" then 0 else Undec(s[..|s| - 1]) * 10 + DigitValue(s[|s| - 1])
  }

  lemma {:induction false} UndecDec(n: nat)
    ensures Undec(Dec(n)) == n
  {
    if n >= 10 {
      UndecDec(n / 10);
      var r := Dec(n);
      assert r[..|r| - 1] == Dec(n / 10);
    } else {
      assert Dec(n)[..0] == "";
    }
  }

  /** Decimal digits, none of them a leading zero. */
  lemma {:induction false} DecIsPlain(n: nat)
    ensures Dec(n) != "" && (forall i :: 0 <= i < |Dec(n)| ==> '0' <= Dec(n)[i] <= '9')
    ensures n > 0 ==> Dec(n)[0] != '0'
    ensures n == 0 ==> Dec(n) == "0"
  {
    if n >= 10 {
      DecIsPlain(n / 10);
    }
  }

  // -- Delimiters ------------------------------------------------------------------------------

  predicate Free(c: char, s: string) {
    c !in s
  }

  lemma {:induction false} HexFree(v: nat, width: nat, c: char)
    requires c == ' ' || c == '\n'
    ensures Free(c, HexDigits(v, width))
  {
    if width > 0 {
      HexFree(v / 16, width - 1, c);
    }
  }

  lemma {:induction false} DecFree(n: nat, c: char)
    requires c == ' ' || c == '\n'
    ensures Free(c, Dec(n))
  {
    if n >= 10 {
      DecFree(n / 10, c);
    }
  }

  function UntilFirst(c: char, s: string): string {
    if s == "" || s[0] == c then "" else [s[0]] + UntilFirst(c, s[1..])
  }

  function FromLast(c: char, s: string): string {
    if s == "" || s[|s| - 1] == c then "" else FromLast(c, s[..|s| - 1]) + [s[|s| - 1]]
  }

  lemma {:induction false} UntilFirstFinds(c: char, a: string, r: string)
    requires Free(c, a)
    ensures UntilFirst(c, a + [c] + r) == a
  {
    var u := a + [c] + r;
    if a != "" {
      UntilFirstFinds(c, a[1..], r);
      assert u[0] == a[0] && u[1..] == a[1..] + [c] + r;
      assert a[0] in a;
    } else {
      assert u[0] == c;
    }
  }

  lemma {:induction false} FromLastFinds(c: char, r: string, a: string)
    requires Free(c, a)
    ensures FromLast(c, r + [c] + a) == a
  {
    var u := r + [c] + a;
    if a != "" {
      FromLastFinds(c, r, a[..|a| - 1]);
      assert u[|u| - 1] == a[|a| - 1] && u[..|u| - 1] == r + [c] + a[..|a| - 1];
      assert a[|a| - 1] in a;
    } else {
      assert u[|u| - 1] == c;
    }
  }

  /** A delimiter-free prefix is recovered from the left ... */
  lemma CutFirst(c: char, a: string, r: string, b: string, t: string)
    requires Free(c, a) && Free(c, b) && a + [c] + r == b + [c] + t
    ensures a == b && r == t
  {
    UntilFirstFinds(c, a, r);
    UntilFirstFinds(c, b, t);
    assert r == (a + [c] + r)[|a| + 1..] && t == (b + [c] + t)[|b| + 1..];
  }

  /** ... and a delimiter-free suffix from the right. */
  lemma CutLast(c: char, r: string, a: string, t: string, b: string)
    requires Free(c, a) && Free(c, b) && r + [c] + a == t + [c] + b
    ensures a == b && r == t
  {
    FromLastFinds(c, r, a);
    FromLastFinds(c, t, b);
    assert r == (r + [c] + a)[..|r|] && t == (t + [c] + b)[..|t|];
  }

  // -- Records ---------------------------------------------------------------------------------

  datatype SymKind = ModuleDecl | FnDecl | RecordDecl | UseDecl

  datatype RelKind = Defines | References | DependsOn | RfcRef

  datatype Record =
    | Doc(kind: nat, path: string, digest: int, size: nat, words: nat, lines: nat)
    | Term(path: string, token: string, tid: int, seqno: nat)
    | SymRec(path: string, sym: SymKind, name: string, ndigest: int, seqno: nat)
    | Heading(path: string, level: nat, seqno: nat, tdigest: int, title: string)
    | Rel(src: string, rel: RelKind, dst: string, seqno: nat)
    | Press(path: string, pid: string, seqno: nat)

  function SymText(k: SymKind): string {
    match k case ModuleDecl => "module" case FnDecl => "fn" case RecordDecl => "record" case UseDecl => "use"
  }

  function RelText(k: RelKind): string {
    match k
    case Defines => "defines"
    case References => "references"
    case DependsOn => "depends-on"
    case RfcRef => "rfc-ref"
  }

  function Tag(r: Record): string {
    match r
    case Doc(_, _, _, _, _, _) => "doc"
    case Term(_, _, _, _) => "term"
    case SymRec(_, _, _, _, _) => "sym"
    case Heading(_, _, _, _, _) => "heading"
    case Rel(_, _, _, _) => "rel"
    case Press(_, _, _) => "press"
  }

  const SP := " "

  /** The line after its tag. */
  function Body(r: Record): string {
    match r
    case Doc(kind, path, digest, size, words, lines) =>
      Dec(kind) + SP + (path + SP + Hex16(digest) + SP + Dec(size) + SP + Dec(words) + SP + Dec(lines) + SP + "0")
    case Term(path, token, tid, seqno) =>
      path + SP + token + SP + Hex16(tid) + SP + Dec(seqno)
    case SymRec(path, sym, name, ndigest, seqno) =>
      path + SP + SymText(sym) + SP + name + SP + Hex16(ndigest) + SP + Dec(seqno)
    case Heading(path, level, seqno, tdigest, title) =>
      path + SP + (Dec(level) + SP + (Dec(seqno) + SP + (Hex16(tdigest) + SP + title)))
    case Rel(src, rel, dst, seqno) =>
      src + SP + (RelText(rel) + SP + (dst + SP + Dec(seqno)))
    case Press(path, pid, seqno) =>
      path + SP + pid + SP + Dec(seqno)
  }

  function CanonLine(r: Record): string {
    Tag(r) + SP + Body(r)
  }

  predicate Digest64(v: int) {
    0 <= v < TWO64
  }

  predicate SingleLine(s: string) {
    Free('\n', s)
  }

  predicate Word(s: string) {
    Free(' ', s) && SingleLine(s)
  }

  /** What discovery, extraction and the constructors guarantee of one record. */
  predicate WellFormed(r: Record) {
    match r
    case Doc(_, path, digest, _, _, _) => SingleLine(path) && Digest64(digest)
    case Term(path, token, tid, _) => SingleLine(path) && Word(token) && Digest64(tid)
    case SymRec(path, _, name, ndigest, _) => SingleLine(path) && Word(name) && Digest64(ndigest)
    case Heading(path, level, _, tdigest, title) =>
      SingleLine(path) && 1 <= level <= 6 && SingleLine(title) && Digest64(tdigest)
    case Rel(src, _, dst, _) => SingleLine(src) && SingleLine(dst)
    case Press(path, pid, _) => SingleLine(path) && Word(pid)
  }

  lemma FieldsFree(n: nat, v: int)
    ensures Free(' ', Dec(n)) && Free(' ', Hex16(v)) && Free('\n', Dec(n)) && Free('\n', Hex16(v))
  {
    DecFree(n, ' ');
    DecFree(n, '\n');
    HexFree(v % TWO64, 16, ' ');
    HexFree(v % TWO64, 16, '\n');
  }

  // -- The whole text --------------------------------------------------------------------------

  /** Lines, each ended by a newline. */
  function Text(lines: seq<string>): string {
    if lines == [] then "" else lines[0] + "\n" + Text(lines[1..])
  }

  function Each<T, U>(f: T -> U, s: seq<T>): (r: seq<U>) {
    seq(|s|, i requires 0 <= i < |s| => f(s[i]))
  }

  function Lines(records: seq<Record>): seq<string> {
    Each(CanonLine, records)
  }

  datatype Version = V1 | V2

  function Marker(v: Version): string {
    if v.V1? then "mncs-index canonical-v1" else "mncs-index canonical-v2"
  }

  /** `canonical_bytes` and `canonical_bytes_v2`, before UTF-8 encoding. */
  function CanonicalText(v: Version, id: string, records: seq<Record>): string {
    Text([Marker(v), "snapshot " + id] + Lines(records) + ["end"])
  }

  lemma LineIsSingle(r: Record)
    requires WellFormed(r)
    ensures SingleLine(CanonLine(r))
  {
    match r
    case Doc(_, _, _, _, _, _) => DocIsSingle(r);
    case Term(path, token, tid, seqno) =>
      FieldsFree(seqno, tid);
      JoinSingle(path, token);
      JoinSingle(path + SP + token, Hex16(tid));
      JoinSingle(path + SP + token + SP + Hex16(tid), Dec(seqno));
    case SymRec(_, _, _, _, _) => SymIsSingle(r);
    case Heading(path, level, seqno, tdigest, title) =>
      FieldsFree(level, tdigest);
      FieldsFree(seqno, 0);
      JoinSingle(Hex16(tdigest), title);
      JoinSingle(Dec(seqno), Hex16(tdigest) + SP + title);
      JoinSingle(Dec(level), Dec(seqno) + SP + (Hex16(tdigest) + SP + title));
      JoinSingle(path, Dec(level) + SP + (Dec(seqno) + SP + (Hex16(tdigest) + SP + title)));
    case Rel(src, rel, dst, seqno) =>
      FieldsFree(seqno, 0);
      RelTextFree(rel);
      JoinSingle(dst, Dec(seqno));
      JoinSingle(RelText(rel), dst + SP + Dec(seqno));
      JoinSingle(src, RelText(rel) + SP + (dst + SP + Dec(seqno)));
    case Press(path, pid, seqno) =>
      FieldsFree(seqno, 0);
      JoinSingle(path, pid);
      JoinSingle(path + SP + pid, Dec(seqno));
    BodyIsSingle(r);
  }

  lemma BodyIsSingle(r: Record)
    requires SingleLine(Body(r))
    ensures SingleLine(CanonLine(r))
  {
    assert SingleLine(Tag(r));
    JoinSingle(Tag(r), Body(r));
  }

  lemma RelTextFree(k: RelKind)
    ensures Free(' ', RelText(k)) && SingleLine(RelText(k))
  {
  }

  lemma SymIsSingle(r: Record)
    requires r.SymRec? && WellFormed(r)
    ensures SingleLine(Body(r))
  {
    FieldsFree(r.seqno, r.ndigest);
    assert SingleLine(SymText(r.sym));
    var t1 := r.path + SP + SymText(r.sym);
    var t2 := t1 + SP + r.name;
    JoinSingle(r.path, SymText(r.sym));
    JoinSingle(t1, r.name);
    JoinSingle(t2, Hex16(r.ndigest));
    JoinSingle(t2 + SP + Hex16(r.ndigest), Dec(r.seqno));
  }

  lemma DocIsSingle(r: Record)
    requires r.Doc? && WellFormed(r)
    ensures SingleLine(Body(r))
  {
    FieldsFree(r.kind, r.digest);
    FieldsFree(r.size, 0);
    FieldsFree(r.words, 0);
    FieldsFree(r.lines, 0);
    var t1 := r.path + SP + Hex16(r.digest);
    var t2 := t1 + SP + Dec(r.size);
    var t3 := t2 + SP + Dec(r.words);
    var t4 := t3 + SP + Dec(r.lines);
    JoinSingle(r.path, Hex16(r.digest));
    JoinSingle(t1, Dec(r.size));
    JoinSingle(t2, Dec(r.words));
    JoinSingle(t3, Dec(r.lines));
    JoinSingle(t4, "0");
    JoinSingle(Dec(r.kind), t4 + SP + "0");
  }

  lemma JoinSingle(a: string, b: string)
    requires SingleLine(a) && SingleLine(b)
    ensures SingleLine(a + SP + b)
  {
  }
}
