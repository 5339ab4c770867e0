/** The published text read back: field by field within a line, table by table within the whole. */
module SnapshotText {
  import opened Options
  import opened Canonical
  import opened CanonicalOrder

  // -- Splitting ---------------------------------------------------------------------------------------

  /** The parts of a text between the occurrences of a delimiter. */
  function Split(c: char, s: string): (parts: seq<string>)
    ensures parts != []
  {
    if s == "" then [""]
    else if s[0] == c then [""] + Split(c, s[1..])
    else
      var rest := Split(c, s[1..]);
      [[s[0]] + rest[0]] + rest[1..]
  }

  function Join(c: char, parts: seq<string>): string {
    if parts == [] then "" else if |parts| == 1 then parts[0] else parts[0] + [c] + Join(c, parts[1..])
  }

  /** A delimiter cuts: a delimiter-free text before it is the first part ... */
  lemma {:induction false} SplitFirst(c: char, a: string, rest: string)
    requires Free(c, a)
    ensures Split(c, a + [c] + rest) == [a] + Split(c, rest)
  {
    var s := a + [c] + rest;
    if a == "" {
      assert s[0] == c && s[1..] == rest;
    } else {
      assert s[0] == a[0] && s[1..] == a[1..] + [c] + rest && a[0] in a;
      SplitFirst(c, a[1..], rest);
      assert [a[0]] + a[1..] == a;
      assert ([a[1..]] + Split(c, rest))[1..] == Split(c, rest);
    }
  }

  /** ... and one after it the last. */
  lemma {:induction false} SplitAgain(c: char, front: string, a: string)
    requires Free(c, a)
    ensures Split(c, front + [c] + a) == Split(c, front) + [a]
  {
    var s := front + [c] + a;
    if front == "" {
      assert s[0] == c && s[1..] == a;
      SplitLast(c, a);
    } else {
      assert s[0] == front[0] && s[1..] == front[1..] + [c] + a;
      SplitAgain(c, front[1..], a);
      var rest := Split(c, front[1..]);
      assert (rest + [a])[0] == rest[0] && (rest + [a])[1..] == rest[1..] + [a];
    }
  }

  lemma {:induction false} SplitLast(c: char, a: string)
    requires Free(c, a)
    ensures Split(c, a) == [a]
  {
    if a != "" {
      assert a[0] in a;
      SplitLast(c, a[1..]);
      assert [a[0]] + a[1..] == a;
    }
  }

  lemma {:induction false} JoinSplit(c: char, s: string)
    ensures Join(c, Split(c, s)) == s
  {
    if s != "" {
      JoinSplit(c, s[1..]);
      var rest := Split(c, s[1..]);
      if s[0] == c {
        assert Split(c, s)[1..] == rest;
      } else {
        assert Split(c, s)[1..] == rest[1..];
      }
    }
  }

  // -- One line -----------------------------------------------------------------------------------------

  function SymKindOf(word: string): Option<SymKind> {
    if word == "module" then Some(ModuleDecl) else if word == "fn" then Some(FnDecl)
    else if word == "record" then Some(RecordDecl) else if word == "use" then Some(UseDecl) else None
  }

  function RelKindOf(word: string): Option<RelKind> {
    if word == "defines" then Some(Defines) else if word == "references" then Some(References)
    else if word == "depends-on" then Some(DependsOn) else if word == "rfc-ref" then Some(RfcRef) else None
  }

  /** A reader of lines: the first word says what the others are.  A heading's title is the rest of its line. */
  function ReadWords(w: seq<string>): Option<Record>
    requires w != []
  {
    if w[0] == "doc" && |w| == 8 && w[7] == "0" then
      Some(Doc(Undec(w[1]), w[2], Unhex(w[3]), Undec(w[4]), Undec(w[5]), Undec(w[6])))
    else if w[0] == "term" && |w| == 5 then Some(Term(w[1], w[2], Unhex(w[3]), Undec(w[4])))
    else if w[0] == "sym" && |w| == 6 && SymKindOf(w[2]).Some? then
      Some(SymRec(w[1], SymKindOf(w[2]).value, w[3], Unhex(w[4]), Undec(w[5])))
    else if w[0] == "heading" && |w| >= 6 then
      Some(Heading(w[1], Undec(w[2]), Undec(w[3]), Unhex(w[4]), Join(' ', w[5..])))
    else if w[0] == "rel" && |w| == 5 && RelKindOf(w[2]).Some? then
      Some(Rel(w[1], RelKindOf(w[2]).value, w[3], Undec(w[4])))
    else if w[0] == "press" && |w| == 4 then Some(Press(w[1], w[2], Undec(w[3])))
    else None
  }

  function ReadLine(line: string): Option<Record> {
    ReadWords(Split(' ', line))
  }

  /** No blank in a path or a target. */
  predicate SpaceFree(r: Record) {
    Free(' ', Place(r)) && (r.Rel? ==> Free(' ', r.dst))
  }

  /** A printed record is read back from its line. */
  lemma LineReads(r: Record)
    requires WellFormed(r) && SpaceFree(r)
    ensures ReadLine(CanonLine(r)) == Some(r)
  {
    match r
    case Doc(_, _, _, _, _, _) => DocReads(r);
    case Term(_, _, _, _) => TermReads(r);
    case SymRec(_, _, _, _, _) => SymReads(r);
    case Heading(_, _, _, _, _) => HeadingReads(r);
    case Rel(_, _, _, _) => RelReads(r);
    case Press(_, _, _) => PressReads(r);
  }

  lemma NumbersRead(n: nat, v: int)
    requires Digest64(v)
    ensures Undec(Dec(n)) == n && Unhex(Hex16(v)) == v && Free(' ', Dec(n)) && Free(' ', Hex16(v))
  {
    FieldsFree(n, v);
    UndecDec(n);
    UnhexHex16(v);
  }

  lemma DocReads(r: Record)
    requires r.Doc? && WellFormed(r) && SpaceFree(r)
    ensures ReadLine(CanonLine(r)) == Some(r)
  {
    DocWords(r);
    var words := [Dec(r.kind), r.path, Hex16(r.digest), Dec(r.size), Dec(r.words), Dec(r.lines), "0"];
    TagFirst(r, words);
    DocFromWords(r, ["doc"] + words);
  }

  lemma DocFromWords(r: Record, w: seq<string>)
    requires r.Doc? && WellFormed(r)
    requires w == ["doc"] + [Dec(r.kind), r.path, Hex16(r.digest), Dec(r.size), Dec(r.words), Dec(r.lines), "0"]
    ensures ReadWords(w) == Some(r)
  {
    NumbersRead(r.kind, r.digest);
    NumbersRead(r.size, 0);
    NumbersRead(r.words, 0);
    NumbersRead(r.lines, 0);
    DocOfWords(w, Dec(r.kind), r.path, Hex16(r.digest), Dec(r.size), Dec(r.words), Dec(r.lines));
  }

  lemma DocOfWords(w: seq<string>, a: string, b: string, c: string, d: string, e: string, f: string)
    requires w == ["doc"] + [a, b, c, d, e, f, "0"]
    ensures ReadWords(w) == Some(Doc(Undec(a), b, Unhex(c), Undec(d), Undec(e), Undec(f)))
  {
  }

  lemma DocWords(r: Record)
    requires r.Doc? && WellFormed(r) && SpaceFree(r)
    ensures Split(' ', Body(r)) ==
      [Dec(r.kind), r.path, Hex16(r.digest), Dec(r.size), Dec(r.words), Dec(r.lines), "0"]
  {
    FieldsFree(r.kind, r.digest);
    FieldsFree(r.size, 0);
    FieldsFree(r.words, 0);
    FieldsFree(r.lines, 0);
    SevenWords(Dec(r.kind), r.path, Hex16(r.digest), Dec(r.size), Dec(r.words), Dec(r.lines));
  }

  lemma SevenWords(a: string, b: string, c: string, d: string, e: string, f: string)
    requires Free(' ', a) && Free(' ', b) && Free(' ', c) && Free(' ', d) && Free(' ', e) && Free(' ', f)
    ensures Split(' ', a + SP + (b + SP + c + SP + d + SP + e + SP + f + SP + "0")) == [a, b, c, d, e, f, "0"]
  {
    var t1 := b + SP + c;
    var t2 := t1 + SP + d;
    var t3 := t2 + SP + e;
    var t4 := t3 + SP + f;
    SplitLast(' ', b);
    SplitAgain(' ', b, c);
    SplitAgain(' ', t1, d);
    SplitAgain(' ', t2, e);
    SplitAgain(' ', t3, f);
    SplitAgain(' ', t4, "0");
    SplitFirst(' ', a, t4 + SP + "0");
  }

  lemma TagFirst(r: Record, words: seq<string>)
    requires Split(' ', Body(r)) == words
    ensures Split(' ', CanonLine(r)) == [Tag(r)] + words
  {
    assert Free(' ', Tag(r));
    SplitFirst(' ', Tag(r), Body(r));
  }

  lemma TermReads(r: Record)
    requires r.Term? && WellFormed(r) && SpaceFree(r)
    ensures ReadLine(CanonLine(r)) == Some(r)
  {
    NumbersRead(r.seqno, r.tid);
    TermWords(r);
    var words := [r.path, r.token, Hex16(r.tid), Dec(r.seqno)];
    TagFirst(r, words);
    TermFromWords(r, ["term"] + words);
  }

  lemma TermFromWords(r: Record, w: seq<string>)
    requires r.Term? && w == ["term"] + [r.path, r.token, Hex16(r.tid), Dec(r.seqno)]
    requires Undec(Dec(r.seqno)) == r.seqno && Unhex(Hex16(r.tid)) == r.tid
    ensures ReadWords(w) == Some(r)
  {
    assert |w[0]| == 4 && w[0][0] == 't';
  }

  lemma TermWords(r: Record)
    requires r.Term? && WellFormed(r) && SpaceFree(r)
    ensures Split(' ', Body(r)) == [r.path, r.token, Hex16(r.tid), Dec(r.seqno)]
  {
    FieldsFree(r.seqno, r.tid);
    SplitLast(' ', r.path);
    SplitAgain(' ', r.path, r.token);
    SplitAgain(' ', r.path + SP + r.token, Hex16(r.tid));
    SplitAgain(' ', r.path + SP + r.token + SP + Hex16(r.tid), Dec(r.seqno));
  }

  lemma SymReads(r: Record)
    requires r.SymRec? && WellFormed(r) && SpaceFree(r)
    ensures ReadLine(CanonLine(r)) == Some(r)
  {
    NumbersRead(r.seqno, r.ndigest);
    SymWords(r);
    var words := [r.path, SymText(r.sym), r.name, Hex16(r.ndigest), Dec(r.seqno)];
    TagFirst(r, words);
    SymFromWords(r, ["sym"] + words);
  }

  lemma SymFromWords(r: Record, w: seq<string>)
    requires r.SymRec? && w == ["sym"] + [r.path, SymText(r.sym), r.name, Hex16(r.ndigest), Dec(r.seqno)]
    requires Undec(Dec(r.seqno)) == r.seqno && Unhex(Hex16(r.ndigest)) == r.ndigest
    ensures ReadWords(w) == Some(r)
  {
    assert SymKindOf(SymText(r.sym)) == Some(r.sym);
    assert |w[0]| == 3 && w[0][0] == 's';
  }

  lemma SymWords(r: Record)
    requires r.SymRec? && WellFormed(r) && SpaceFree(r)
    ensures Split(' ', Body(r)) == [r.path, SymText(r.sym), r.name, Hex16(r.ndigest), Dec(r.seqno)]
  {
    FieldsFree(r.seqno, r.ndigest);
    var t1 := r.path + SP + SymText(r.sym);
    var t2 := t1 + SP + r.name;
    SplitLast(' ', r.path);
    SplitAgain(' ', r.path, SymText(r.sym));
    SplitAgain(' ', t1, r.name);
    SplitAgain(' ', t2, Hex16(r.ndigest));
    SplitAgain(' ', t2 + SP + Hex16(r.ndigest), Dec(r.seqno));
  }

  lemma HeadingReads(r: Record)
    requires r.Heading? && WellFormed(r) && SpaceFree(r)
    ensures ReadLine(CanonLine(r)) == Some(r)
  {
    NumbersRead(r.level, r.tdigest);
    NumbersRead(r.seqno, 0);
    JoinSplit(' ', r.title);
    var title := Split(' ', r.title);
    HeadingWords(r);
    TagFirst(r, [r.path, Dec(r.level), Dec(r.seqno), Hex16(r.tdigest)] + title);
    var words := ["heading"] + ([r.path, Dec(r.level), Dec(r.seqno), Hex16(r.tdigest)] + title);
    HeadingFromWords(r, words, title);
  }

  lemma HeadingFromWords(r: Record, w: seq<string>, title: seq<string>)
    requires r.Heading? && title != [] && Join(' ', title) == r.title
    requires w == ["heading"] + ([r.path, Dec(r.level), Dec(r.seqno), Hex16(r.tdigest)] + title)
    requires Undec(Dec(r.level)) == r.level && Undec(Dec(r.seqno)) == r.seqno && Unhex(Hex16(r.tdigest)) == r.tdigest
    ensures ReadWords(w) == Some(r)
  {
    assert w[5..] == title;
    assert w[1] == r.path && w[2] == Dec(r.level) && w[3] == Dec(r.seqno) && w[4] == Hex16(r.tdigest);
    HeadingOfWords(w);
  }

  lemma HeadingOfWords(w: seq<string>)
    requires |w| >= 6 && w[0] == "heading"
    ensures ReadWords(w) == Some(Heading(w[1], Undec(w[2]), Undec(w[3]), Unhex(w[4]), Join(' ', w[5..])))
  {
    assert |w[0]| == 7;
  }

  lemma HeadingWords(r: Record)
    requires r.Heading? && WellFormed(r) && SpaceFree(r)
    ensures Split(' ', Body(r)) == [r.path, Dec(r.level), Dec(r.seqno), Hex16(r.tdigest)] + Split(' ', r.title)
  {
    FieldsFree(r.level, r.tdigest);
    FieldsFree(r.seqno, 0);
    var t3 := Hex16(r.tdigest) + SP + r.title;
    var t2 := Dec(r.seqno) + SP + t3;
    SplitFirst(' ', Hex16(r.tdigest), r.title);
    SplitFirst(' ', Dec(r.seqno), t3);
    SplitFirst(' ', Dec(r.level), t2);
    SplitFirst(' ', r.path, Dec(r.level) + SP + t2);
  }

  lemma RelReads(r: Record)
    requires r.Rel? && WellFormed(r) && SpaceFree(r)
    ensures ReadLine(CanonLine(r)) == Some(r)
  {
    NumbersRead(r.seqno, 0);
    RelWords(r);
    var words := [r.src, RelText(r.rel), r.dst, Dec(r.seqno)];
    TagFirst(r, words);
    RelFromWords(r, ["rel"] + words);
  }

  lemma RelFromWords(r: Record, w: seq<string>)
    requires r.Rel? && w == ["rel"] + [r.src, RelText(r.rel), r.dst, Dec(r.seqno)] && Undec(Dec(r.seqno)) == r.seqno
    ensures ReadWords(w) == Some(r)
  {
    assert RelKindOf(RelText(r.rel)) == Some(r.rel);
    assert |w[0]| == 3 && w[0][0] == 'r';
  }

  lemma RelWords(r: Record)
    requires r.Rel? && WellFormed(r) && SpaceFree(r)
    ensures Split(' ', Body(r)) == [r.src, RelText(r.rel), r.dst, Dec(r.seqno)]
  {
    FieldsFree(r.seqno, 0);
    var t2 := r.dst + SP + Dec(r.seqno);
    SplitLast(' ', Dec(r.seqno));
    SplitFirst(' ', r.dst, Dec(r.seqno));
    SplitFirst(' ', RelText(r.rel), t2);
    SplitFirst(' ', r.src, RelText(r.rel) + SP + t2);
  }

  lemma PressReads(r: Record)
    requires r.Press? && WellFormed(r) && SpaceFree(r)
    ensures ReadLine(CanonLine(r)) == Some(r)
  {
    NumbersRead(r.seqno, 0);
    PressWords(r);
    var words := [r.path, r.pid, Dec(r.seqno)];
    TagFirst(r, words);
    PressFromWords(r, ["press"] + words);
  }

  lemma PressFromWords(r: Record, w: seq<string>)
    requires r.Press? && w == ["press"] + [r.path, r.pid, Dec(r.seqno)] && Undec(Dec(r.seqno)) == r.seqno
    ensures ReadWords(w) == Some(r)
  {
    assert |w[0]| == 5 && w[0][0] == 'p';
  }

  lemma PressWords(r: Record)
    requires r.Press? && WellFormed(r) && SpaceFree(r)
    ensures Split(' ', Body(r)) == [r.path, r.pid, Dec(r.seqno)]
  {
    FieldsFree(r.seqno, 0);
    SplitLast(' ', r.path);
    SplitAgain(' ', r.path, r.pid);
    SplitAgain(' ', r.path + SP + r.pid, Dec(r.seqno));
  }

  // -- The whole text -------------------------------------------------------------------------------------

  lemma {:induction false} TextSplits(lines: seq<string>)
    requires forall l :: l in lines ==> SingleLine(l)
    ensures Split('\n', Text(lines)) == lines + [""]
  {
    if lines != [] {
      assert lines[0] in lines;
      SplitFirst('\n', lines[0], Text(lines[1..]));
      TextSplits(lines[1..]);
    }
  }

  /** The lines of the text: a marker of the version, the snapshot's id, one line per record in order, and the end. */
  lemma TextReads(v: Version, id: string, records: seq<Record>)
    requires SingleLine(id) && forall r :: r in records ==> WellFormed(r)
    ensures var lines := Split('\n', CanonicalText(v, id, records));
      && |lines| == |records| + 4
      && lines[0] == (if v == V1 then "mncs-index canonical-v1" else "mncs-index canonical-v2")
      && lines[1] == "snapshot " + id
      && (forall i :: 0 <= i < |records| && SpaceFree(records[i]) ==> ReadLine(lines[i + 2]) == Some(records[i]))
      && lines[|records| + 2] == "end" && lines[|records| + 3] == ""
  {
    var all := [Marker(v), "snapshot " + id] + Lines(records) + ["end"];
    AllSingle(v, id, records);
    TextSplits(all);
    forall i | 0 <= i < |records| && SpaceFree(records[i]) ensures ReadLine(all[i + 2]) == Some(records[i]) {
      assert all[i + 2] == CanonLine(records[i]);
      LineReads(records[i]);
    }
  }

  lemma AllSingle(v: Version, id: string, records: seq<Record>)
    requires SingleLine(id) && forall r :: r in records ==> WellFormed(r)
    ensures forall l :: l in [Marker(v), "snapshot " + id] + Lines(records) + ["end"] ==> SingleLine(l)
  {
    forall i | 0 <= i < |records| ensures SingleLine(Lines(records)[i]) {
      LineIsSingle(records[i]);
    }
    assert SingleLine("snapshot " + id) && SingleLine(Marker(v)) && SingleLine("end");
  }
}
