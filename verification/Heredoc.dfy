/** Heredoc splitting and line counting for Bash churn (backend/bash_churn.py).
    What the opener regex finds on a line and what is left of the line without
    those tokens are given functions; termination is modelled on the text. */
module Heredoc {
  import opened Wrappers

  type Line = string

  /** One `<<TAG` opener: `dash` is the `<<-` form. */
  datatype Opener = Opener(dash: bool, tag: string)

  /** What the regexes say about a line. */
  datatype Syntax = Syntax(openers: Line -> seq<Opener>, strip: Line -> Line)

  // ------------------------------------------------------------------
  // Terminators
  // ------------------------------------------------------------------

  predicate IsSpace(c: char) {
    c == ' ' || '\t' <= c <= '\r' || 28 <= c as int <= 31
  }

  function StripLeft(s: string): string {
    if s != "" && IsSpace(s[0]) then StripLeft(s[1..]) else s
  }

  function StripRight(s: string): string {
    if s != "" && IsSpace(s[|s| - 1]) then StripRight(s[..|s| - 1]) else s
  }

  function Strip(s: string): string {
    StripRight(StripLeft(s))
  }

  function StripTabs(s: string): string {
    if s != "" && s[0] == '\t' then StripTabs(s[1..]) else s
  }

  predicate Terminates(op: Opener, line: Line) {
    Strip(if op.dash then StripTabs(line) else line) == op.tag
  }

  /** `strip()` already removes what `<<-` would, so `<<TAG` also ends at an indented tag. */
  lemma {:induction false} DashIsIrrelevant(tag: string, line: Line)
    ensures Terminates(Opener(true, tag), line) <==> Terminates(Opener(false, tag), line)
  {
    TabsAreSpace(line);
  }

  lemma {:induction false} TabsAreSpace(s: string)
    ensures StripLeft(StripTabs(s)) == StripLeft(s)
  {
    if s != "" && s[0] == '\t' {
      TabsAreSpace(s[1..]);
    }
  }

  ghost predicate AllSpace(s: string) {
    forall i | 0 <= i < |s| :: IsSpace(s[i])
  }

  /** No white space at either end. */
  predicate Bare(s: string) {
    s != "" ==> !IsSpace(s[0]) && !IsSpace(s[|s| - 1])
  }

  /** The text is the tag with nothing but white space around it, the tag starting at i. */
  ghost predicate TagAt(tag: string, s: string, i: nat) {
    && i + |tag| <= |s| && s[i..i + |tag|] == tag
    && AllSpace(s[..i]) && AllSpace(s[i + |tag|..])
  }

  lemma {:induction false} StripLeftDrops(s: string, i: nat)
    requires i <= |s| && AllSpace(s[..i])
    ensures StripLeft(s) == StripLeft(s[i..])
  {
    if i > 0 {
      assert IsSpace(s[..i][0]) && s[1..][..i - 1] == s[..i][1..] && s[1..][i - 1..] == s[i..];
      StripLeftDrops(s[1..], i - 1);
    }
  }

  lemma {:induction false} StripRightDrops(s: string, n: nat)
    requires n <= |s| && AllSpace(s[n..])
    ensures StripRight(s) == StripRight(s[..n])
    decreases |s|
  {
    if n < |s| {
      var last := |s| - 1;
      assert IsSpace(s[n..][last - n]) && s[..last][n..] == s[n..][..last - n] && s[..last][..n] == s[..n];
      StripRightDrops(s[..last], n);
    } else {
      assert s[..n] == s;
    }
  }

  lemma {:induction false} StripLeftLeaves(s: string) returns (i: nat)
    ensures i <= |s| && AllSpace(s[..i]) && StripLeft(s) == s[i..] && (i < |s| ==> !IsSpace(s[i]))
  {
    if s != "" && IsSpace(s[0]) {
      var j := StripLeftLeaves(s[1..]);
      i := j + 1;
      assert s[..i] == [s[0]] + s[1..][..j] && s[i..] == s[1..][j..];
    } else {
      i := 0;
    }
  }

  lemma {:induction false} StripRightLeaves(s: string) returns (n: nat)
    ensures n <= |s| && AllSpace(s[n..]) && StripRight(s) == s[..n] && (n > 0 ==> !IsSpace(s[n - 1]))
    decreases |s|
  {
    if s != "" && IsSpace(s[|s| - 1]) {
      var last := |s| - 1;
      n := StripRightLeaves(s[..last]);
      assert s[n..] == s[..last][n..] + [s[last]] && s[..last][..n] == s[..n];
    } else {
      n := |s|;
    }
  }

  /** `strip()` leaves exactly the text without the white space around it. */
  lemma StripExactly(s: string, t: string)
    ensures Strip(s) == t <==> Bare(t) && exists i: nat :: TagAt(t, s, i)
  {
    if Strip(s) == t {
      var i := StripLeftLeaves(s);
      var n := StripRightLeaves(s[i..]);
      assert s[i..][..n] == s[i..i + n] && s[i..][n..] == s[i + n..];
      assert n > 0 ==> s[i..i + n][0] == s[i];
      assert TagAt(t, s, i);
    }
    if i: nat :| Bare(t) && TagAt(t, s, i) {
      StripLeftDrops(s, i);
      BareStays(t, s[i..]);
    }
  }

  lemma BareStays(t: string, u: string)
    requires Bare(t) && t <= u && AllSpace(u[|t|..])
    ensures StripRight(StripLeft(u)) == t
  {
    if t == "" {
      StripLeftDrops(u, |u|);
      assert u[..|u|] == u[|t|..] && u[|u|..] == "";
    } else {
      assert u[0] == t[0];
      StripRightDrops(u, |t|);
    }
  }

  /** A line ends a heredoc exactly when it is the tag with nothing but white space around
      it; so a tag with white space at an end is never matched. */
  lemma TerminatesExactly(op: Opener, line: Line)
    ensures Terminates(op, line) <==> Bare(op.tag) && exists i: nat :: TagAt(op.tag, line, i)
  {
    if op.dash {
      DashIsIrrelevant(op.tag, line);
      assert op == Opener(true, op.tag);
    }
    StripExactly(line, op.tag);
    hide Strip, TagAt, Bare;
    assert Terminates(Opener(false, op.tag), line) <==> Strip(line) == op.tag;
    assert !op.dash ==> op == Opener(false, op.tag);
  }

  // ------------------------------------------------------------------
  // Specification: a command as a sequence of chunks
  // ------------------------------------------------------------------

  /** A body and the terminator line that ended it, if one did. */
  datatype Doc = Doc(body: seq<Line>, end: Option<Line>)

  /** A line outside every body, with the bodies its openers read. */
  datatype Chunk = Chunk(line: Line, docs: seq<Doc>)

  function Lines(doc: Doc): seq<Line> {
    doc.body + if doc.end.Some? then [doc.end.value] else []
  }

  function DocLines(docs: seq<Doc>): seq<Line> {
    if docs == [] then [] else Lines(docs[0]) + DocLines(docs[1..])
  }

  /** The text a sequence of chunks was cut from. */
  function Print(chunks: seq<Chunk>): seq<Line> {
    if chunks == [] then [] else [chunks[0].line] + DocLines(chunks[0].docs) + Print(chunks[1..])
  }

  /** One body, and the lines after it. */
  function ReadDoc(lines: seq<Line>, op: Opener): (r: (Doc, seq<Line>))
    ensures |r.1| <= |lines|
  {
    if lines == [] then (Doc([], None), [])
    else if Terminates(op, lines[0]) then (Doc([], Some(lines[0])), lines[1..])
    else
      var (doc, rest) := ReadDoc(lines[1..], op);
      (Doc([lines[0]] + doc.body, doc.end), rest)
  }

  function ReadDocs(lines: seq<Line>, ops: seq<Opener>): (r: (seq<Doc>, seq<Line>))
    ensures |r.1| <= |lines| && |r.0| == |ops|
    decreases |ops|
  {
    if ops == [] then ([], lines)
    else
      var (doc, after) := ReadDoc(lines, ops[0]);
      var (docs, rest) := ReadDocs(after, ops[1..]);
      ([doc] + docs, rest)
  }

  function Split(lines: seq<Line>, syn: Syntax): seq<Chunk>
    decreases |lines|
  {
    if lines == [] then []
    else
      var (docs, rest) := ReadDocs(lines[1..], syn.openers(lines[0]));
      [Chunk(lines[0], docs)] + Split(rest, syn)
  }

  lemma {:induction false} ReadDocLosesNothing(lines: seq<Line>, op: Opener)
    ensures Lines(ReadDoc(lines, op).0) + ReadDoc(lines, op).1 == lines
  {
    if lines != [] && !Terminates(op, lines[0]) {
      ReadDocLosesNothing(lines[1..], op);
      var (doc, rest) := ReadDoc(lines[1..], op);
      assert Lines(Doc([lines[0]] + doc.body, doc.end)) == [lines[0]] + Lines(doc);
    }
  }

  lemma {:induction false} ReadDocsLosesNothing(lines: seq<Line>, ops: seq<Opener>)
    ensures DocLines(ReadDocs(lines, ops).0) + ReadDocs(lines, ops).1 == lines
    decreases |ops|
  {
    if ops != [] {
      ReadDocLosesNothing(lines, ops[0]);
      var (doc, after) := ReadDoc(lines, ops[0]);
      ReadDocsLosesNothing(after, ops[1..]);
      var (docs, rest) := ReadDocs(after, ops[1..]);
      assert Lines(doc) + (DocLines(docs) + rest) == Lines(doc) + DocLines(docs) + rest;
    }
  }

  /** Every input line lands exactly once, in order: outside, in a body, or as a terminator. */
  lemma {:induction false} SplitLosesNothing(lines: seq<Line>, syn: Syntax)
    ensures Print(Split(lines, syn)) == lines
    decreases |lines|
  {
    if lines != [] {
      ReadDocsLosesNothing(lines[1..], syn.openers(lines[0]));
      var (docs, rest) := ReadDocs(lines[1..], syn.openers(lines[0]));
      SplitLosesNothing(rest, syn);
      PrintCons(lines, docs, rest, Split(rest, syn));
    }
  }

  lemma PrintCons(lines: seq<Line>, docs: seq<Doc>, rest: seq<Line>, chunks: seq<Chunk>)
    requires lines != [] && DocLines(docs) + rest == lines[1..] && Print(chunks) == rest
    ensures Print([Chunk(lines[0], docs)] + chunks) == lines
  {
    assert ([Chunk(lines[0], docs)] + chunks)[1..] == chunks;
    assert [lines[0]] + DocLines(docs) + rest == [lines[0]] + (DocLines(docs) + rest);
  }

  // ------------------------------------------------------------------
  // Splitting undoes printing
  // ------------------------------------------------------------------

  /** doc is what opener op reads: no body line ends it, and its end line does. */
  ghost predicate Terminated(doc: Doc, op: Opener) {
    && doc.end.Some? && Terminates(op, doc.end.value)
    && forall l | l in doc.body :: !Terminates(op, l)
  }

  ghost predicate AllTerminated(docs: seq<Doc>, ops: seq<Opener>) {
    |docs| == |ops| && forall i | 0 <= i < |docs| :: Terminated(docs[i], ops[i])
  }

  ghost predicate WellFormed(chunks: seq<Chunk>, syn: Syntax) {
    forall i | 0 <= i < |chunks| :: AllTerminated(chunks[i].docs, syn.openers(chunks[i].line))
  }

  lemma {:induction false} ReadDocUndoes(doc: Doc, op: Opener, rest: seq<Line>)
    requires Terminated(doc, op)
    ensures ReadDoc(Lines(doc) + rest, op) == (doc, rest)
    decreases |doc.body|
  {
    var lines := Lines(doc) + rest;
    if doc.body == [] {
      assert lines[1..] == rest && doc == Doc([], doc.end);
    } else {
      var tail := Doc(doc.body[1..], doc.end);
      ReadDocUndoes(tail, op, rest);
      assert lines[1..] == Lines(tail) + rest;
      assert lines[0] == doc.body[0];
      assert [doc.body[0]] + tail.body == doc.body;
    }
  }

  lemma {:induction false} ReadDocsUndoes(docs: seq<Doc>, ops: seq<Opener>, rest: seq<Line>)
    requires AllTerminated(docs, ops)
    ensures ReadDocs(DocLines(docs) + rest, ops) == (docs, rest)
    decreases |ops|
  {
    if ops == [] {
      assert DocLines(docs) + rest == rest && docs == [];
    } else {
      var after := DocLines(docs[1..]) + rest;
      assert DocLines(docs) + rest == Lines(docs[0]) + after;
      ReadDocUndoes(docs[0], ops[0], after);
      ReadDocsUndoes(docs[1..], ops[1..], rest);
      assert [docs[0]] + docs[1..] == docs;
    }
  }

  /** Printing well-formed chunks before any further text and splitting returns them first. */
  lemma {:induction false} SplitUndoesPrint(chunks: seq<Chunk>, rest: seq<Line>, syn: Syntax)
    requires WellFormed(chunks, syn)
    ensures Split(Print(chunks) + rest, syn) == chunks + Split(rest, syn)
  {
    if chunks == [] {
      assert Print(chunks) + rest == rest;
    } else {
      PrintFirst(chunks, rest);
      assert WellFormed(chunks[1..], syn) && AllTerminated(chunks[0].docs, syn.openers(chunks[0].line));
      hide *;
      SplitUndoesPrint(chunks[1..], rest, syn);
      UndoFirst(chunks[0], Print(chunks[1..]) + rest, syn);
      Regroup(chunks, Split(rest, syn));
    }
  }

  lemma Regroup(chunks: seq<Chunk>, tail: seq<Chunk>)
    requires chunks != []
    ensures [chunks[0]] + (chunks[1..] + tail) == chunks + tail
  {
  }

  lemma UndoFirst(c: Chunk, more: seq<Line>, syn: Syntax)
    requires AllTerminated(c.docs, syn.openers(c.line))
    ensures Split([c.line] + DocLines(c.docs) + more, syn) == [c] + Split(more, syn)
  {
    ReadDocsUndoes(c.docs, syn.openers(c.line), more);
    SplitFirst(c, [c.line] + DocLines(c.docs) + more, more, syn);
  }

  lemma PrintFirst(chunks: seq<Chunk>, rest: seq<Line>)
    requires chunks != []
    ensures Print(chunks) + rest == [chunks[0].line] + DocLines(chunks[0].docs) + (Print(chunks[1..]) + rest)
  {
  }

  lemma SplitFirst(c: Chunk, lines: seq<Line>, more: seq<Line>, syn: Syntax)
    requires lines == [c.line] + DocLines(c.docs) + more
    requires ReadDocs(DocLines(c.docs) + more, syn.openers(c.line)) == (c.docs, more)
    ensures Split(lines, syn) == [c] + Split(more, syn)
  {
    assert lines[1..] == DocLines(c.docs) + more;
  }

  ghost predicate AllEnded(docs: seq<Doc>) {
    forall d | d in docs :: d.end.Some?
  }

  ghost predicate FullyTerminated(chunks: seq<Chunk>) {
    forall c | c in chunks :: AllEnded(c.docs)
  }

  lemma {:induction false} ReadDocTerminated(lines: seq<Line>, op: Opener)
    ensures ReadDoc(lines, op).0.end.Some? ==> Terminated(ReadDoc(lines, op).0, op)
  {
    if lines != [] && !Terminates(op, lines[0]) {
      ReadDocTerminated(lines[1..], op);
    }
  }

  lemma {:induction false} ReadDocsTerminated(lines: seq<Line>, ops: seq<Opener>)
    requires AllEnded(ReadDocs(lines, ops).0)
    ensures AllTerminated(ReadDocs(lines, ops).0, ops)
    decreases |ops|
  {
    if ops != [] {
      var (doc, after) := ReadDoc(lines, ops[0]);
      var docs := ReadDocs(after, ops[1..]).0;
      assert ReadDocs(lines, ops).0 == [doc] + docs;
      ReadDocTerminated(lines, ops[0]);
      assert forall d | d in docs :: d in [doc] + docs;
      ReadDocsTerminated(after, ops[1..]);
    }
  }

  lemma {:induction false} SplitIsWellFormed(lines: seq<Line>, syn: Syntax)
    requires FullyTerminated(Split(lines, syn))
    ensures WellFormed(Split(lines, syn), syn)
    decreases |lines|
  {
    if lines != [] {
      var (docs, rest) := ReadDocs(lines[1..], syn.openers(lines[0]));
      var chunks := Split(rest, syn);
      assert Split(lines, syn) == [Chunk(lines[0], docs)] + chunks;
      assert Chunk(lines[0], docs) in Split(lines, syn);
      ReadDocsTerminated(lines[1..], syn.openers(lines[0]));
      assert forall c | c in chunks :: c in Split(lines, syn);
      SplitIsWellFormed(rest, syn);
    }
  }

  /** If every heredoc of the first part is terminated, splitting distributes over concatenation. */
  lemma SplitConcat(first: seq<Line>, second: seq<Line>, syn: Syntax)
    requires FullyTerminated(Split(first, syn))
    ensures Split(first + second, syn) == Split(first, syn) + Split(second, syn)
  {
    SplitIsWellFormed(first, syn);
    SplitUndoesPrint(Split(first, syn), second, syn);
    SplitLosesNothing(first, syn);
  }

  // ------------------------------------------------------------------
  // Joined text and its line count
  // ------------------------------------------------------------------

  function Join(lines: seq<Line>): string {
    if lines == [] then "" else if |lines| == 1 then lines[0] else lines[0] + "\n" + Join(lines[1..])
  }

  function Newlines(s: string): nat {
    if s == "" then 0 else (if s[0] == '\n' then 1 else 0) + Newlines(s[1..])
  }

  function CountLines(s: string): nat {
    if s == "" then 0 else Newlines(s) + if s[|s| - 1] == '\n' then 0 else 1
  }

  lemma {:induction false} NewlinesConcat(a: string, b: string)
    ensures Newlines(a + b) == Newlines(a) + Newlines(b)
  {
    if a == "" {
      assert a + b == b;
    } else {
      assert (a + b)[1..] == a[1..] + b;
      NewlinesConcat(a[1..], b);
    }
  }

  /** Python's `split("\n")`. */
  function SplitLines(s: string): (lines: seq<Line>)
    ensures lines != []
  {
    if s == "" then [""]
    else
      var rest := SplitLines(s[1..]);
      if s[0] == '\n' then [""] + rest else [[s[0]] + rest[0]] + rest[1..]
  }

  predicate OneLine(l: Line) {
    Newlines(l) == 0
  }

  lemma {:induction false} JoinNewlines(lines: seq<Line>)
    requires lines != [] && forall l | l in lines :: OneLine(l)
    ensures Newlines(Join(lines)) == |lines| - 1
    ensures Join(lines) == "" <==> lines == [""]
  {
    assert lines[0] in lines;
    if |lines| > 1 {
      JoinNewlines(lines[1..]);
      NewlinesConcat(lines[0] + "\n", Join(lines[1..]));
      NewlinesConcat(lines[0], "\n");
    }
  }

  lemma {:induction false} SplitLinesPrefix(l: Line, s: string)
    requires OneLine(l)
    ensures SplitLines(l + s) == [l + SplitLines(s)[0]] + SplitLines(s)[1..]
  {
    if l == "" {
      assert l + s == s && l + SplitLines(s)[0] == SplitLines(s)[0];
    } else {
      assert (l + s)[1..] == l[1..] + s;
      SplitLinesPrefix(l[1..], s);
      var first, rest := SplitLines(s)[0], SplitLines(s)[1..];
      assert ([l[1..] + first] + rest)[1..] == rest;
      assert [l[0]] + (l[1..] + first) == l + first;
    }
  }

  /** Joining lines and splitting the text again returns the lines. */
  lemma {:induction false} SplitLinesUndoesJoin(lines: seq<Line>)
    requires lines != [] && forall l | l in lines :: OneLine(l)
    ensures SplitLines(Join(lines)) == lines
  {
    assert lines[0] in lines;
    if |lines| == 1 {
      SplitLinesPrefix(lines[0], "");
      assert lines[0] + "" == lines[0] && SplitLines("") == [""];
    } else {
      var rest := "\n" + Join(lines[1..]);
      assert Join(lines) == lines[0] + rest by {
        assert lines[0] + "\n" + Join(lines[1..]) == lines[0] + rest;
      }
      hide Join, Newlines;
      SplitLinesUndoesJoin(lines[1..]);
      SplitAfterNewline(Join(lines[1..]));
      hide SplitLines, OneLine;
      SplitLinesPrefix(lines[0], rest);
      assert lines[0] + "" == lines[0] && ([""] + lines[1..])[1..] == lines[1..];
    }
  }

  lemma SplitAfterNewline(s: string)
    ensures SplitLines("\n" + s) == [""] + SplitLines(s)
  {
    assert ("\n" + s)[1..] == s;
  }

  /** What a heredoc body written to a file counts as added. */
  function FileLines(body: string): nat {
    if body == "" then 0 else CountLines(body + "\n")
  }

  /** A file body counts its lines, except that a single empty line counts 0. */
  lemma FileBodyCountsItsLines(lines: seq<Line>)
    requires forall l | l in lines :: OneLine(l)
    ensures FileLines(Join(lines)) == if lines == [""] then 0 else |lines|
  {
    if lines != [] {
      JoinNewlines(lines);
      NewlinesConcat(Join(lines), "\n");
    }
  }

  // ------------------------------------------------------------------
  // Heredoc churn
  // ------------------------------------------------------------------

  datatype Churn = Churn(added: nat, deleted: nat)

  function Plus(a: Churn, b: Churn): Churn {
    Churn(a.added + b.added, a.deleted + b.deleted)
  }

  function PairsOf(chunk: Chunk, syn: Syntax): seq<(Line, string)> {
    seq(|chunk.docs|, i requires 0 <= i < |chunk.docs| => (syn.strip(chunk.line), Join(chunk.docs[i].body)))
  }

  function Pairs(chunks: seq<Chunk>, syn: Syntax): seq<(Line, string)> {
    if chunks == [] then [] else PairsOf(chunks[0], syn) + Pairs(chunks[1..], syn)
  }

  function Leftover(chunks: seq<Chunk>, syn: Syntax): seq<Line> {
    seq(|chunks|, i requires 0 <= i < |chunks| => syn.strip(chunks[i].line))
  }

  function DiffLine(line: Line): Churn {
    if "+++" <= line || "---" <= line then Churn(0, 0)
    else if "+" <= line then Churn(1, 0)
    else if "-" <= line then Churn(0, 1)
    else Churn(0, 0)
  }

  function DiffOf(lines: seq<Line>): Churn {
    if lines == [] then Churn(0, 0) else Plus(DiffOf(lines[..|lines| - 1]), DiffLine(lines[|lines| - 1]))
  }

  /** Which lines begin with a mark that is not a file header's three. */
  function Marked(lines: seq<Line>, mark: char): set<nat> {
    set i: nat | i < |lines| && lines[i] != "" && lines[i][0] == mark && !([mark, mark, mark] <= lines[i])
  }

  lemma {:induction false} MarkedGrows(lines: seq<Line>, mark: char)
    requires lines != []
    ensures var last := |lines| - 1;
      |Marked(lines, mark)|
      == |Marked(lines[..last], mark)|
         + if lines[last] != "" && lines[last][0] == mark && !([mark, mark, mark] <= lines[last]) then 1 else 0
  {
    var last := |lines| - 1;
    var more := if lines[last] != "" && lines[last][0] == mark && !([mark, mark, mark] <= lines[last])
                then {last} else {};
    assert Marked(lines, mark) == Marked(lines[..last], mark) + more;
  }

  /** A patch adds its lines that begin with one plus sign, and deletes those that begin
      with one minus sign. */
  lemma {:induction false} DiffCounts(lines: seq<Line>)
    ensures DiffOf(lines) == Churn(|Marked(lines, '+')|, |Marked(lines, '-')|)
  {
    if lines == [] {
      assert Marked(lines, '+') == {} && Marked(lines, '-') == {};
    } else {
      var last := |lines| - 1;
      DiffCounts(lines[..last]);
      MarkedGrows(lines, '+');
      MarkedGrows(lines, '-');
      hide Marked;
      DiffLineIs(lines[last]);
    }
  }

  lemma DiffLineIs(line: Line)
    ensures DiffLine(line)
         == Churn(if line != "" && line[0] == '+' && !(['+', '+', '+'] <= line) then 1 else 0,
                  if line != "" && line[0] == '-' && !(['-', '-', '-'] <= line) then 1 else 0)
  {
    assert "+++" == ['+', '+', '+'] && "---" == ['-', '-', '-'];
  }

  lemma DiffStep(lines: seq<Line>, i: nat)
    requires i < |lines|
    ensures DiffOf(lines[..i + 1]) == Plus(DiffOf(lines[..i]), DiffLine(lines[i]))
  {
    assert lines[..i + 1][..i] == lines[..i];
  }

  lemma NoDiff(lines: seq<Line>)
    ensures DiffOf(lines[..0]) == Churn(0, 0)
  {
  }

  method DiffChurn(body: string) returns (r: Churn)
    ensures r == DiffOf(SplitLines(body))
    ensures r == Churn(|Marked(SplitLines(body), '+')|, |Marked(SplitLines(body), '-')|)
  {
    DiffCounts(SplitLines(body));
    hide DiffOf, SplitLines, Marked;
    var lines := SplitLines(body);
    NoDiff(lines);
    var added, deleted := 0, 0;
    for i := 0 to |lines|
      invariant Churn(added, deleted) == DiffOf(lines[..i])
    {
      DiffStep(lines, i);
      var line := lines[i];
      if "+++" <= line || "---" <= line {
        continue;
      }
      if "+" <= line {
        added := added + 1;
      } else if "-" <= line {
        deleted := deleted + 1;
      }
    }
    assert lines[..|lines|] == lines;
    return Churn(added, deleted);
  }

  /** The classifiers of a heredoc's context, in the order they are tried, and
      the churn of a Python script body. */
  datatype Classifier = Classifier(
    patch: Line -> bool,
    pythonStdin: Line -> bool,
    writesFile: Line -> bool,
    python: string -> Churn)

  function PairChurn(pair: (Line, string), cl: Classifier): Churn {
    if cl.patch(pair.0) then DiffOf(SplitLines(pair.1))
    else if cl.pythonStdin(pair.0) then cl.python(pair.1)
    else if cl.writesFile(pair.0) then Churn(FileLines(pair.1), 0)
    else Churn(0, 0)
  }

  /** What a body's lines count as under its context: a patch line by line, a file by its
      number of lines, a single empty line counting 0. */
  lemma BodyCountsByItsLines(context: Line, body: seq<Line>, cl: Classifier)
    requires forall l | l in body :: OneLine(l)
    ensures PairChurn((context, Join(body)), cl) ==
      if cl.patch(context) then DiffOf(body)
      else if cl.pythonStdin(context) then cl.python(Join(body))
      else if cl.writesFile(context) then Churn(if body == [""] then 0 else |body|, 0)
      else Churn(0, 0)
  {
    hide OneLine, DiffLine;
    FileBodyCountsItsLines(body);
    if body == [] {
      assert DiffLine("") == Churn(0, 0) by {
        EmptyLineCountsNothing();
      }
      assert SplitLines(Join(body)) == [""] && [""][..0] == [];
    } else {
      SplitLinesUndoesJoin(body);
    }
  }

  lemma EmptyLineCountsNothing()
    ensures DiffLine("") == Churn(0, 0)
  {
  }

  function PairsChurn(pairs: seq<(Line, string)>, cl: Classifier): Churn {
    if pairs == [] then Churn(0, 0)
    else Plus(PairsChurn(pairs[..|pairs| - 1], cl), PairChurn(pairs[|pairs| - 1], cl))
  }

  lemma {:induction false} PairsChurnConcat(a: seq<(Line, string)>, b: seq<(Line, string)>, cl: Classifier)
    ensures PairsChurn(a + b, cl) == Plus(PairsChurn(a, cl), PairsChurn(b, cl))
  {
    if b == [] {
      assert a + b == a;
    } else {
      assert (a + b)[..|a + b| - 1] == a + b[..|b| - 1];
      PairsChurnConcat(a, b[..|b| - 1], cl);
    }
  }

  lemma {:induction false} PairsConcat(a: seq<Chunk>, b: seq<Chunk>, syn: Syntax)
    ensures Pairs(a + b, syn) == Pairs(a, syn) + Pairs(b, syn)
  {
    if a == [] {
      assert a + b == b;
    } else {
      assert (a + b)[1..] == a[1..] + b;
      PairsConcat(a[1..], b, syn);
    }
  }

  lemma PairsSplit(before: seq<Chunk>, c: Chunk, after: seq<Chunk>, syn: Syntax)
    ensures Pairs(before + [c] + after, syn) == Pairs(before, syn) + PairsOf(c, syn) + Pairs(after, syn)
  {
    PairsConcat(before, [c], syn);
    PairsConcat(before + [c], after, syn);
    assert [c][1..] == [] && Pairs([c], syn) == PairsOf(c, syn) + [];
  }

  lemma At(a: seq<(Line, string)>, b: seq<(Line, string)>, c: seq<(Line, string)>, i: nat)
    requires i < |b|
    ensures (a + b + c)[|a| + i] == b[i] && |a + b + c| == |a| + |b| + |c|
  {
  }

  lemma BodyOf(c: Chunk, syn: Syntax, i: nat)
    requires i < |c.docs|
    ensures |PairsOf(c, syn)| == |c.docs| && PairsOf(c, syn)[i] == (syn.strip(c.line), Join(c.docs[i].body))
  {
    hide Join;
  }

  /** A chunk's bodies come out in order, each under its own line stripped of openers. */
  lemma BodiesComeOut(before: seq<Chunk>, c: Chunk, after: seq<Chunk>, syn: Syntax, i: nat)
    requires i < |c.docs|
    ensures var pairs := Pairs(before + [c] + after, syn);
      && |pairs| == |Pairs(before, syn)| + |c.docs| + |Pairs(after, syn)|
      && pairs[|Pairs(before, syn)| + i] == (syn.strip(c.line), Join(c.docs[i].body))
  {
    hide *;
    PairsSplit(before, c, after, syn);
    BodyOf(c, syn, i);
    At(Pairs(before, syn), PairsOf(c, syn), Pairs(after, syn), i);
  }

  /** That stripped line is what is left over of the chunk, in its place. */
  lemma LineIsLeft(before: seq<Chunk>, c: Chunk, after: seq<Chunk>, syn: Syntax)
    ensures var left := Leftover(before + [c] + after, syn);
      |left| == |before| + 1 + |after| && left[|before|] == syn.strip(c.line)
  {
  }

  function HeredocChurn(lines: seq<Line>, syn: Syntax, cl: Classifier): Churn {
    PairsChurn(Pairs(Split(lines, syn), syn), cl)
  }

  /** Heredoc churn adds over concatenation when the first part is fully terminated. */
  lemma HeredocChurnAdds(first: seq<Line>, second: seq<Line>, syn: Syntax, cl: Classifier)
    requires FullyTerminated(Split(first, syn))
    ensures HeredocChurn(first + second, syn, cl)
            == Plus(HeredocChurn(first, syn, cl), HeredocChurn(second, syn, cl))
  {
    SplitConcat(first, second, syn);
    PairsConcat(Split(first, syn), Split(second, syn), syn);
    PairsChurnConcat(Pairs(Split(first, syn), syn), Pairs(Split(second, syn), syn), cl);
  }

  // ------------------------------------------------------------------
  // The splitter's loops
  // ------------------------------------------------------------------

  /** How the specification unfolds at index i of the whole text. */
  lemma SplitAt(lines: seq<Line>, i: nat, syn: Syntax)
    requires i < |lines|
    ensures Split(lines[i..], syn) ==
            [Chunk(lines[i], ReadDocs(lines[i + 1..], syn.openers(lines[i])).0)]
            + Split(ReadDocs(lines[i + 1..], syn.openers(lines[i])).1, syn)
  {
    assert lines[i..][1..] == lines[i + 1..];
  }

  lemma ReadDocsAt(lines: seq<Line>, ops: seq<Opener>, o: nat)
    requires o < |ops|
    ensures ReadDocs(lines, ops[o..]) ==
            ([ReadDoc(lines, ops[o]).0] + ReadDocs(ReadDoc(lines, ops[o]).1, ops[o + 1..]).0,
             ReadDocs(ReadDoc(lines, ops[o]).1, ops[o + 1..]).1)
  {
    assert ops[o..][1..] == ops[o + 1..];
  }

  lemma ReadDocAt(lines: seq<Line>, i: nat, op: Opener)
    requires i < |lines|
    ensures Terminates(op, lines[i]) ==> ReadDoc(lines[i..], op) == (Doc([], Some(lines[i])), lines[i + 1..])
    ensures !Terminates(op, lines[i]) ==>
              ReadDoc(lines[i..], op) ==
              (Doc([lines[i]] + ReadDoc(lines[i + 1..], op).0.body, ReadDoc(lines[i + 1..], op).0.end),
               ReadDoc(lines[i + 1..], op).1)
  {
    assert lines[i..][1..] == lines[i + 1..];
  }

  lemma NothingSplit(lines: seq<Line>, syn: Syntax)
    ensures Split(lines, syn) == [] + Split(lines[0..], syn)
    ensures Pairs([], syn) == [] && Leftover([], syn) == []
  {
    assert lines[0..] == lines;
  }

  lemma AllSplit(lines: seq<Line>, syn: Syntax, chunks: seq<Chunk>)
    requires Split(lines, syn) == chunks + Split(lines[|lines|..], syn)
    ensures Split(lines, syn) == chunks
  {
    assert lines[|lines|..] == [] && chunks + [] == chunks;
  }

  /** One turn of the outer loop: the line at i with the bodies read after it is the next chunk. */
  lemma SplitStep(lines: seq<Line>, syn: Syntax, i: nat, next: nat, chunks: seq<Chunk>, docs: seq<Doc>)
    requires i < |lines| && i + 1 <= next <= |lines| && Split(lines, syn) == chunks + Split(lines[i..], syn)
    requires ReadDocs(lines[i + 1..], syn.openers(lines[i])) == (docs, lines[next..])
    ensures Split(lines, syn) == chunks + [Chunk(lines[i], docs)] + Split(lines[next..], syn)
  {
    hide *;
    SplitAt(lines, i, syn);
    assert chunks + ([Chunk(lines[i], docs)] + Split(lines[next..], syn))
        == chunks + [Chunk(lines[i], docs)] + Split(lines[next..], syn);
  }

  method SplitHeredocs(lines: seq<Line>, syn: Syntax) returns (pairs: seq<(Line, string)>, leftover: seq<Line>)
    ensures pairs == Pairs(Split(lines, syn), syn)
    ensures leftover == Leftover(Split(lines, syn), syn)
  {
    hide *;
    pairs, leftover := [], [];
    var i := 0;
    ghost var chunks: seq<Chunk> := [];
    NothingSplit(lines, syn);
    while i < |lines|
      invariant 0 <= i <= |lines|
      invariant Split(lines, syn) == chunks + Split(lines[i..], syn)
      invariant pairs == Pairs(chunks, syn) && leftover == Leftover(chunks, syn)
    {
      var line := lines[i];
      leftover := leftover + [syn.strip(line)];
      var next, read, docs := ReadBodies(lines, i + 1, syn.openers(line), syn.strip(line));
      SplitStep(lines, syn, i, next, chunks, docs);
      OnePair(chunks, Chunk(line, docs), read, syn);
      pairs := pairs + read;
      chunks := chunks + [Chunk(line, docs)];
      i := next;
    }
    AllSplit(lines, syn, chunks);
  }

  lemma OnePair(chunks: seq<Chunk>, chunk: Chunk, read: seq<(Line, string)>, syn: Syntax)
    requires |read| == |chunk.docs|
    requires forall d | 0 <= d < |read| :: read[d] == (syn.strip(chunk.line), Join(chunk.docs[d].body))
    ensures Pairs(chunks + [chunk], syn) == Pairs(chunks, syn) + read
    ensures Leftover(chunks + [chunk], syn) == Leftover(chunks, syn) + [syn.strip(chunk.line)]
  {
    PairsConcat(chunks, [chunk], syn);
    assert PairsOf(chunk, syn) == read;
    assert [chunk][1..] == [] && Pairs([chunk], syn) == read + [];
  }

  lemma NothingRead(lines: seq<Line>, ops: seq<Opener>)
    ensures ReadDocs(lines, ops) == ([] + ReadDocs(lines, ops[0..]).0, ReadDocs(lines, ops[0..]).1)
  {
    hide *;
    var docs := ReadDocs(lines, ops).0;
    assert ops[0..] == ops && [] + docs == docs;
  }

  lemma AllRead(lines: seq<Line>, ops: seq<Opener>)
    ensures ReadDocs(lines, ops[|ops|..]) == ([], lines)
  {
    assert ops[|ops|..] == [];
  }

  /** One turn of the middle loop: the document read for opener o is the next one. */
  lemma ReadStep(goal: (seq<Doc>, seq<Line>), lines: seq<Line>, rest: seq<Line>, ops: seq<Opener>, o: nat,
                 docs: seq<Doc>, doc: Doc)
    requires o < |ops| && ReadDoc(lines, ops[o]) == (doc, rest)
    requires goal == (docs + ReadDocs(lines, ops[o..]).0, ReadDocs(lines, ops[o..]).1)
    ensures goal == (docs + [doc] + ReadDocs(rest, ops[o + 1..]).0, ReadDocs(rest, ops[o + 1..]).1)
  {
    hide *;
    ReadDocsAt(lines, ops, o);
    var more := ReadDocs(rest, ops[o + 1..]).0;
    assert docs + ([doc] + more) == docs + [doc] + more;
  }

  method ReadBodies(lines: seq<Line>, start: nat, openers: seq<Opener>, context: Line)
    returns (i: nat, pairs: seq<(Line, string)>, ghost docs: seq<Doc>)
    requires start <= |lines|
    ensures start <= i <= |lines| && ReadDocs(lines[start..], openers) == (docs, lines[i..])
    ensures |pairs| == |docs| && forall d | 0 <= d < |docs| :: pairs[d] == (context, Join(docs[d].body))
  {
    hide *;
    i, pairs, docs := start, [], [];
    ghost var goal := ReadDocs(lines[start..], openers);
    NothingRead(lines[start..], openers);
    for o := 0 to |openers|
      invariant start <= i <= |lines|
      invariant goal == (docs + ReadDocs(lines[i..], openers[o..]).0, ReadDocs(lines[i..], openers[o..]).1)
      invariant |docs| == |pairs|
      invariant forall d | 0 <= d < |docs| :: pairs[d] == (context, Join(docs[d].body))
    {
      ghost var from := i;
      var body;
      ghost var doc;
      i, body, doc := ReadBody(lines, i, openers[o]);
      ReadStep(goal, lines[from..], lines[i..], openers, o, docs, doc);
      pairs := pairs + [(context, Join(body))];
      docs := docs + [doc];
    }
    AllRead(lines[i..], openers);
    assert docs + [] == docs;
  }

  method ReadBody(lines: seq<Line>, start: nat, op: Opener) returns (i: nat, body: seq<Line>, ghost doc: Doc)
    requires start <= |lines|
    ensures start <= i <= |lines| && ReadDoc(lines[start..], op) == (doc, lines[i..])
    ensures body == doc.body
  {
    i, body := start, [];
    ghost var goal := ReadDoc(lines[start..], op);
    doc := goal.0;
    assert [] + goal.0.body == goal.0.body;
    while i < |lines|
      invariant start <= i <= |lines|
      invariant goal.1 == ReadDoc(lines[i..], op).1
      invariant doc.body == body + ReadDoc(lines[i..], op).0.body
      invariant doc.end == ReadDoc(lines[i..], op).0.end
      invariant doc == goal.0
    {
      hide *;
      var cur := lines[i];
      ReadDocAt(lines, i, op);
      i := i + 1;
      if Terminates(op, cur) {
        assert body + [] == body;
        return;
      }
      ghost var more := ReadDoc(lines[i..], op).0.body;
      assert body + ([cur] + more) == body + [cur] + more;
      body := body + [cur];
    }
    assert lines[i..] == [] && body + [] == body;
  }

  const MAX_COMMAND_CHARS := 1_000_000

  /** The churn of one command, given what `python -c` scripts outside the bodies contribute. */
  method BashChurn(command: string, syn: Syntax, cl: Classifier, dashC: seq<Line> -> Churn) returns (r: Churn)
    ensures command == "" || |command| > MAX_COMMAND_CHARS ==> r == Churn(0, 0)
    ensures command != "" && |command| <= MAX_COMMAND_CHARS ==>
              r == Plus(HeredocChurn(SplitLines(command), syn, cl),
                        dashC(Leftover(Split(SplitLines(command), syn), syn)))
  {
    if command == "" || |command| > MAX_COMMAND_CHARS {
      return Churn(0, 0);
    }
    var pairs, outside := SplitHeredocs(SplitLines(command), syn);
    var inBodies := BodiesChurn(pairs, cl);
    r := Plus(inBodies, dashC(outside));
  }

  method BodiesChurn(pairs: seq<(Line, string)>, cl: Classifier) returns (r: Churn)
    ensures r == PairsChurn(pairs, cl)
  {
    r := Churn(0, 0);
    for i := 0 to |pairs|
      invariant r == PairsChurn(pairs[..i], cl)
    {
      assert pairs[..i + 1][..i] == pairs[..i];
      var churn := BodyChurn(pairs[i].0, pairs[i].1, cl);
      r := Plus(r, churn);
    }
    assert pairs[..|pairs|] == pairs;
  }

  method BodyChurn(context: Line, body: string, cl: Classifier) returns (churn: Churn)
    ensures churn == PairChurn((context, body), cl)
  {
    if cl.patch(context) {
      churn := DiffChurn(body);
    } else if cl.pythonStdin(context) {
      churn := cl.python(body);
    } else if cl.writesFile(context) {
      churn := Churn(FileLines(body), 0);
    } else {
      churn := Churn(0, 0);
    }
  }
}
