/** Which usage lines become context rows, read off the transcript's lines alone, and what
    each row shows (backend/parse.py:143-187, 283-379). */
module TranscriptRows {
  import opened Wrappers
  import opened Transcript
  import opened TranscriptTurns
  import opened TranscriptReplies

  // ------------------------------------------------------------------
  // Turns, by the lines
  // ------------------------------------------------------------------

  /** Line i ends the turn before it: it starts another, or it is a legacy TurnEnd. */
  predicate EndsTurn(format: Format, lines: seq<Line>, i: nat)
    requires i < |lines|
  {
    StartsTurn(format, lines, i) || (format.Legacy? && lines[i].event.TurnEnd?)
  }

  /** Line s starts a turn no line before n has ended. */
  ghost predicate OpenSince(format: Format, lines: seq<Line>, s: nat, n: nat)
    requires n <= |lines|
  {
    s < n && StartsTurn(format, lines, s) && forall j | s < j < n :: !EndsTurn(format, lines, j)
  }

  ghost predicate InTurn(format: Format, lines: seq<Line>, n: nat)
    requires n <= |lines|
  {
    exists s: nat :: OpenSince(format, lines, s, n)
  }

  ghost predicate NoUsage(lines: seq<Line>, k: nat, e: nat)
    requires e <= |lines|
  {
    forall m | k < m < e :: !lines[m].event.Usage?
  }

  /** A turn that was open at k ends at e, or at the end of the transcript, with no usage
      line in between. */
  ghost predicate EndsNext(format: Format, lines: seq<Line>, k: nat, e: nat) {
    k < e <= |lines| && (e < |lines| ==> EndsTurn(format, lines, e)) && NoUsage(lines, k, e)
  }

  /** Usage line k is the last of its turn. */
  ghost predicate LastOfTurn(format: Format, lines: seq<Line>, k: nat)
    requires k < |lines|
  {
    lines[k].event.Usage? && InTurn(format, lines, k) && exists e: nat :: EndsNext(format, lines, k, e)
  }

  /** It is the last of a turn that ended before line n. */
  ghost predicate LastOfClosed(format: Format, lines: seq<Line>, k: nat, n: nat)
    requires k < |lines| && n <= |lines|
  {
    && lines[k].event.Usage? && InTurn(format, lines, k)
    && exists e: nat :: e < n && EndsNext(format, lines, k, e)
  }

  /** It is the last so far of a turn still open at line n. */
  ghost predicate LastOfOpen(format: Format, lines: seq<Line>, k: nat, n: nat)
    requires k < |lines| && n <= |lines|
  {
    && lines[k].event.Usage? && InTurn(format, lines, k)
    && k < n && NoUsage(lines, k, n) && forall j | k < j < n :: !EndsTurn(format, lines, j)
  }

  // ------------------------------------------------------------------
  // One line more
  // ------------------------------------------------------------------

  lemma EndLine(format: Format, lines: seq<Line>, k: nat, n: nat)
    requires k < |lines| && n < |lines| && EndsTurn(format, lines, n)
    ensures LastOfClosed(format, lines, k, n + 1)
       <==> LastOfClosed(format, lines, k, n) || LastOfOpen(format, lines, k, n)
    ensures !LastOfOpen(format, lines, k, n + 1)
    ensures InTurn(format, lines, n + 1) <==> StartsTurn(format, lines, n)
  {
    hide StartsTurn, InTurn;
    if LastOfClosed(format, lines, k, n + 1) && !LastOfClosed(format, lines, k, n) {
      assert EndsNext(format, lines, k, n);
      forall j | k < j < n
        ensures !EndsTurn(format, lines, j)
      {
        assert !EndsNext(format, lines, k, j);
      }
    }
    if LastOfOpen(format, lines, k, n) {
      assert EndsNext(format, lines, k, n);
    }
    UsageEndsNothing(format, lines, k);
    StartOpens(format, lines, n);
  }

  lemma UsageEndsNothing(format: Format, lines: seq<Line>, k: nat)
    requires k < |lines|
    ensures lines[k].event.Usage? ==> !EndsTurn(format, lines, k)
  {
  }

  lemma StartOpens(format: Format, lines: seq<Line>, n: nat)
    requires n < |lines| && EndsTurn(format, lines, n)
    ensures InTurn(format, lines, n + 1) <==> StartsTurn(format, lines, n)
  {
    hide StartsTurn;
    if StartsTurn(format, lines, n) {
      assert OpenSince(format, lines, n, n + 1);
    }
  }

  lemma PassingLine(format: Format, lines: seq<Line>, n: nat)
    requires n < |lines| && !EndsTurn(format, lines, n)
    ensures InTurn(format, lines, n + 1) <==> InTurn(format, lines, n)
  {
    hide StartsTurn;
    var next := n + 1;
    if s: nat :| OpenSince(format, lines, s, next) {
      assert EndsTurn(format, lines, s);
      assert OpenSince(format, lines, s, n);
    }
    if s: nat :| OpenSince(format, lines, s, n) {
      assert OpenSince(format, lines, s, next);
    }
  }

  lemma QuietLine(format: Format, lines: seq<Line>, k: nat, n: nat)
    requires k < |lines| && n < |lines| && k != n && !EndsTurn(format, lines, n)
    ensures LastOfClosed(format, lines, k, n + 1) <==> LastOfClosed(format, lines, k, n)
    ensures LastOfOpen(format, lines, k, n + 1) <==> LastOfOpen(format, lines, k, n) && !lines[n].event.Usage?
  {
    hide InTurn, StartsTurn, EndsTurn;
    if LastOfClosed(format, lines, k, n + 1) {
      var e: nat :| e < n + 1 && EndsNext(format, lines, k, e);
      assert e < n;
    }
  }

  lemma UsageLine(format: Format, lines: seq<Line>, n: nat)
    requires n < |lines| && lines[n].event.Usage?
    ensures !LastOfClosed(format, lines, n, n + 1)
    ensures LastOfOpen(format, lines, n, n + 1) <==> InTurn(format, lines, n)
  {
    hide InTurn, StartsTurn, EndsTurn;
  }

  // ------------------------------------------------------------------
  // What one line does to the turns
  // ------------------------------------------------------------------

  function Closed(s: State, line: Line): seq<Turn> {
    if s.open.Some? then [s.open.value.(end := Some(line.num), endTs := line.ts)] else []
  }

  lemma StepTurns(s: State, format: Format, key: string, before: seq<Line>, line: Line)
    requires Remembers(s, format, before)
    ensures var t := Step(s, format, key, line);
      if Starts(format, before, line) then
        t.turns == s.turns + Closed(s, line) && t.open == Some(Turn(line.num, line.ts, None, None, []))
      else if format.Legacy? && line.event.TurnEnd? then
        t.turns == s.turns + Closed(s, line) && t.open == None
      else
        t.turns == s.turns
        && t.open == if line.event.Usage? && s.open.Some?
                     then Some(s.open.value.(status := s.open.value.status + [line.num])) else s.open
  {
    hide Bill, FirstStamp, Anchor, TextSince, StepId;
    if line.event.Message? {
      var stamped := Stamp(s, line.ts);
      hide AppendTools;
      ToolsLeaveMemory(stamped.(text := stamped.text + line.event.chars), line, line.event.calls);
      ToolsLeaveTurns(stamped.(text := stamped.text + line.event.chars), line, line.event.calls);
    }
  }

  lemma {:induction false} ToolsLeaveTurns(s: State, line: Line, calls: seq<Call>)
    ensures AppendTools(s, line, calls).turns == s.turns
  {
    if calls != [] {
      ToolsLeaveTurns(s, line, calls[..|calls| - 1]);
    }
  }

  /** The open turn's last record line is x. */
  predicate HoldsOpen(s: State, x: nat) {
    s.open.Some? && LastLineIs(s.open.value, x)
  }

  ghost predicate HoldsClosed(turns: seq<Turn>, x: nat) {
    exists t | t in turns :: LastLineIs(t, x)
  }

  lemma HoldsJoin(turns: seq<Turn>, more: seq<Turn>, x: nat)
    ensures HoldsClosed(turns + more, x) <==> HoldsClosed(turns, x) || HoldsClosed(more, x)
  {
    hide LastLineIs;
    if HoldsClosed(turns, x) {
      var t :| t in turns && LastLineIs(t, x);
      assert t in turns + more;
    }
    if HoldsClosed(more, x) {
      var t :| t in more && LastLineIs(t, x);
      assert t in turns + more;
    }
  }

  lemma HoldsClosing(s: State, line: Line, x: nat)
    ensures HoldsClosed(Closed(s, line), x) <==> HoldsOpen(s, x)
  {
    if s.open.Some? {
      assert Closed(s, line)[0] in Closed(s, line);
    }
  }

  // ------------------------------------------------------------------
  // The parser's turns are those of the lines
  // ------------------------------------------------------------------

  lemma {:induction false} NumbersAscend(lines: seq<Line>, i: nat, j: nat)
    requires Numbered(lines) && i < j < |lines|
    ensures lines[i].num < lines[j].num
    decreases |lines|
  {
    var last := |lines| - 1;
    if i < last - 1 {
      NumbersAscend(lines[..last], i, if j == last then last - 1 else j);
    }
  }

  lemma {:induction false} NumberedPrefix(lines: seq<Line>, n: nat)
    requires Numbered(lines) && n <= |lines|
    ensures Numbered(lines[..n])
    decreases |lines|
  {
    if n == |lines| {
      assert lines[..n] == lines;
    } else {
      NumberedPrefix(lines[..|lines| - 1], n);
      assert lines[..|lines| - 1][..n] == lines[..n];
    }
  }

  /** No turn holds a line that has not come yet. */
  lemma LaterHeldNowhere(format: Format, key: string, lines: seq<Line>, n: nat, k: nat)
    requires Numbered(lines) && n <= k < |lines|
    ensures var s := Run(format, key, lines[..n]); !HoldsOpen(s, lines[k].num) && !HoldsClosed(s.turns, lines[k].num)
  {
    hide Run;
    var s, x := Run(format, key, lines[..n]), lines[k].num;
    NumberedPrefix(lines, n);
    RunKeepsInv(format, key, lines[..n]);
    assert Top(lines[..n]) < x by {
      if n > 0 {
        NumbersAscend(lines, n - 1, k);
      }
      FirstNumberPositive(lines, k);
    }
    HeldWithin(s, Top(lines[..n]), x);
  }

  lemma {:induction false} FirstNumberPositive(lines: seq<Line>, k: nat)
    requires Numbered(lines) && k < |lines|
    ensures 0 < lines[k].num
    decreases |lines|
  {
    if k < |lines| - 1 {
      FirstNumberPositive(lines[..|lines| - 1], k);
    }
  }

  lemma HeldWithin(s: State, top: nat, x: nat)
    requires Inv(s, top) && top < x
    ensures !HoldsOpen(s, x) && !HoldsClosed(s.turns, x)
  {
    hide Ascending, Between;
    if s.open.Some? && s.open.value.status != [] {
      var t := s.open.value;
      StatusWithin(s.records, t.begin, top, |t.status| - 1);
    }
    TurnsHeldWithin(s.turns, s.records, if s.open.Some? then s.open.value.begin else top, x);
  }

  lemma {:induction false} TurnsHeldWithin(turns: seq<Turn>, records: seq<Record>, limit: nat, x: nat)
    requires TurnsOk(turns, records, limit) && limit < x
    ensures !HoldsClosed(turns, x)
  {
    hide Between;
    if turns != [] {
      var last := turns[|turns| - 1];
      TurnsHeldWithin(turns[..|turns| - 1], records, last.begin, x);
      assert turns == turns[..|turns| - 1] + [last];
      if last.status != [] {
        StatusWithin(records, last.begin, last.end.value, |last.status| - 1);
      }
    }
  }

  ghost predicate Tracks(s: State, format: Format, lines: seq<Line>, k: nat, n: nat)
    requires k < |lines| && n <= |lines|
  {
    && (s.open.Some? <==> InTurn(format, lines, n))
    && (HoldsOpen(s, lines[k].num) <==> LastOfOpen(format, lines, k, n))
    && (HoldsClosed(s.turns, lines[k].num) <==> LastOfClosed(format, lines, k, n))
  }

  /** After n lines the parser's open and closed turns hold usage line k exactly as the
      lines say. */
  lemma {:induction false} RunTracks(format: Format, key: string, lines: seq<Line>, k: nat, n: nat)
    requires Numbered(lines) && k < |lines| && lines[k].event.Usage? && n <= |lines|
    ensures Tracks(Run(format, key, lines[..n]), format, lines, k, n)
    decreases n
  {
    hide *;
    if n == 0 {
      NothingTracked(format, key, lines, k);
    } else {
      var before, line := lines[..n - 1], lines[n - 1];
      assert lines[..n] == before + [line];
      RunTracks(format, key, lines, k, n - 1);
      RunRemembers(format, key, before);
      RunOneMore(format, key, before, line);
      StepTracks(format, key, lines, k, n - 1, Run(format, key, before));
    }
  }

  lemma RunOneMore(format: Format, key: string, before: seq<Line>, line: Line)
    ensures Run(format, key, before + [line]) == Step(Run(format, key, before), format, key, line)
  {
    hide Step;
    assert (before + [line])[..|before|] == before;
  }

  lemma NothingTracked(format: Format, key: string, lines: seq<Line>, k: nat)
    requires k < |lines|
    ensures Tracks(Run(format, key, lines[..0]), format, lines, k, 0)
  {
    hide StartsTurn;
    assert lines[..0] == [];
  }

  lemma StepTracks(format: Format, key: string, lines: seq<Line>, k: nat, n: nat, s: State)
    requires Numbered(lines) && k < |lines| && lines[k].event.Usage? && n < |lines|
    requires s == Run(format, key, lines[..n]) && Remembers(s, format, lines[..n]) && Tracks(s, format, lines, k, n)
    ensures Tracks(Step(s, format, key, lines[n]), format, lines, k, n + 1)
  {
    hide *;
    var line := lines[n];
    StepTurns(s, format, key, lines[..n], line);
    StartsHere(format, lines, n);
    if EndsTurn(format, lines, n) {
      EndTracks(s, Step(s, format, key, line), format, lines, k, n);
    } else if k == n {
      LaterHeldNowhere(format, key, lines, n, n);
      UsageTracks(s, Step(s, format, key, line), format, lines, n);
    } else {
      NumbersDiffer(lines, k, n);
      PassTracks(s, Step(s, format, key, line), format, lines, k, n);
    }
  }

  lemma StartsHere(format: Format, lines: seq<Line>, n: nat)
    requires n < |lines|
    ensures StartsTurn(format, lines, n) <==> Starts(format, lines[..n], lines[n])
    ensures EndsTurn(format, lines, n)
       <==> StartsTurn(format, lines, n) || (format.Legacy? && lines[n].event.TurnEnd?)
    ensures EndsTurn(format, lines, n) ==> !lines[n].event.Usage?
  {
  }

  lemma NumbersDiffer(lines: seq<Line>, i: nat, j: nat)
    requires Numbered(lines) && i < |lines| && j < |lines| && i != j
    ensures lines[i].num != lines[j].num
  {
    hide Numbered;
    if i < j {
      NumbersAscend(lines, i, j);
    } else {
      NumbersAscend(lines, j, i);
    }
  }

  lemma EndTracks(s: State, t: State, format: Format, lines: seq<Line>, k: nat, n: nat)
    requires k < |lines| && n < |lines| && EndsTurn(format, lines, n) && Tracks(s, format, lines, k, n)
    requires t.turns == s.turns + Closed(s, lines[n])
    requires t.open.Some? <==> StartsTurn(format, lines, n)
    requires t.open.Some? ==> t.open.value.status == []
    ensures Tracks(t, format, lines, k, n + 1)
  {
    hide InTurn, StartsTurn, EndsTurn, LastOfOpen, LastOfClosed, Closed, HoldsClosed;
    EndLine(format, lines, k, n);
    HoldsJoin(s.turns, Closed(s, lines[n]), lines[k].num);
    HoldsClosing(s, lines[n], lines[k].num);
  }

  lemma UsageTracks(s: State, t: State, format: Format, lines: seq<Line>, n: nat)
    requires n < |lines| && lines[n].event.Usage? && Tracks(s, format, lines, n, n)
    requires !HoldsClosed(s.turns, lines[n].num) && !EndsTurn(format, lines, n)
    requires t.turns == s.turns && (t.open.Some? <==> s.open.Some?)
    requires t.open.Some? ==> t.open.value.status == s.open.value.status + [lines[n].num]
    ensures Tracks(t, format, lines, n, n + 1)
  {
    hide InTurn, StartsTurn, EndsTurn, LastOfOpen, LastOfClosed, HoldsClosed;
    PassingLine(format, lines, n);
    UsageLine(format, lines, n);
  }

  lemma PassTracks(s: State, t: State, format: Format, lines: seq<Line>, k: nat, n: nat)
    requires k < |lines| && n < |lines| && k != n && !EndsTurn(format, lines, n) && Tracks(s, format, lines, k, n)
    requires lines[k].num != lines[n].num && t.turns == s.turns && (t.open.Some? <==> s.open.Some?)
    requires t.open.Some? ==>
      t.open.value.status == if lines[n].event.Usage? then s.open.value.status + [lines[n].num] else s.open.value.status
    ensures Tracks(t, format, lines, k, n + 1)
  {
    hide InTurn, StartsTurn, EndsTurn, LastOfOpen, LastOfClosed, HoldsClosed;
    PassingLine(format, lines, n);
    QuietLine(format, lines, k, n);
  }

  // ------------------------------------------------------------------
  // The finished turns and the rows
  // ------------------------------------------------------------------

  lemma OpenOrClosed(format: Format, lines: seq<Line>, k: nat)
    requires k < |lines|
    ensures LastOfTurn(format, lines, k)
       <==> LastOfOpen(format, lines, k, |lines|) || LastOfClosed(format, lines, k, |lines|)
  {
    hide InTurn, StartsTurn, EndsTurn;
    if LastOfTurn(format, lines, k) && !LastOfClosed(format, lines, k, |lines|) {
      assert EndsNext(format, lines, k, |lines|);
      forall j | k < j < |lines|
        ensures !EndsTurn(format, lines, j)
      {
        assert !EndsNext(format, lines, k, j);
      }
    }
    if LastOfOpen(format, lines, k, |lines|) {
      assert EndsNext(format, lines, k, |lines|);
    }
  }

  lemma FinishedHold(s: State, format: Format, total: nat, x: nat)
    ensures HoldsClosed(FinishedTurns(s, format, total), x) <==> HoldsClosed(s.turns, x) || HoldsOpen(s, x)
  {
    if s.open.Some? {
      var end := if format.Legacy? then s.open.value else s.open.value.(end := Some(total), endTs := None);
      assert FinishedTurns(s, format, total) == s.turns + [end];
      HoldsJoin(s.turns, [end], x);
      assert [end][0] in [end];
    }
  }

  /** A finished turn's last record line is usage line k exactly when, by the lines, k is
      the last usage of a turn. */
  lemma TurnsHoldLasts(format: Format, key: string, lines: seq<Line>, total: nat, k: nat)
    requires Numbered(lines) && k < |lines| && lines[k].event.Usage?
    ensures HoldsClosed(FinishedTurns(Run(format, key, lines), format, total), lines[k].num)
       <==> LastOfTurn(format, lines, k)
  {
    RunTracks(format, key, lines, k, |lines|);
    assert lines[..|lines|] == lines;
    hide Run, FinishedTurns, LastOfTurn, LastOfOpen, LastOfClosed, HoldsClosed;
    OpenOrClosed(format, lines, k);
    FinishedHold(Run(format, key, lines), format, total, lines[k].num);
  }

  /** The numbers and stamps of the lines that start turns. */
  function StartLines(format: Format, lines: seq<Line>): seq<(nat, Option<int>)> {
    if lines == [] then []
    else
      var last := |lines| - 1;
      StartLines(format, lines[..last])
      + if Starts(format, lines[..last], lines[last]) then [(lines[last].num, lines[last].ts)] else []
  }

  function Begins(turns: seq<Turn>): seq<(nat, Option<int>)> {
    seq(|turns|, i requires 0 <= i < |turns| => (turns[i].begin, turns[i].beginTs))
  }

  function AllTurns(s: State): seq<Turn> {
    s.turns + if s.open.Some? then [s.open.value] else []
  }

  lemma StepBegins(s: State, t: State, format: Format, before: seq<Line>, line: Line)
    requires Begins(AllTurns(s)) == StartLines(format, before)
    requires
      if Starts(format, before, line) then
        t.turns == s.turns + Closed(s, line) && t.open == Some(Turn(line.num, line.ts, None, None, []))
      else if format.Legacy? && line.event.TurnEnd? then
        t.turns == s.turns + Closed(s, line) && t.open == None
      else
        t.turns == s.turns
        && t.open == if line.event.Usage? && s.open.Some?
                     then Some(s.open.value.(status := s.open.value.status + [line.num])) else s.open
    ensures Begins(AllTurns(t)) == StartLines(format, before + [line])
  {
    hide Starts;
    assert (before + [line])[..|before|] == before;
    var more := if Starts(format, before, line) then [(line.num, line.ts)] else [];
    assert Begins(AllTurns(t)) == Begins(AllTurns(s)) + more;
  }

  lemma {:induction false} RunBegins(format: Format, key: string, lines: seq<Line>)
    ensures Begins(AllTurns(Run(format, key, lines))) == StartLines(format, lines)
  {
    if lines != [] {
      var before, line := lines[..|lines| - 1], lines[|lines| - 1];
      assert lines == before + [line];
      RunBegins(format, key, before);
      RunRemembers(format, key, before);
      hide *;
      StepTurns(Run(format, key, before), format, key, before, line);
      RunOneMore(format, key, before, line);
      StepBegins(Run(format, key, before), Run(format, key, lines), format, before, line);
    }
  }

  /** The finished turns begin at exactly the lines that start a turn, in order. */
  lemma TurnsAreStarts(format: Format, key: string, lines: seq<Line>, total: nat)
    ensures Begins(FinishedTurns(Run(format, key, lines), format, total)) == StartLines(format, lines)
  {
    RunBegins(format, key, lines);
    hide Run, StartLines;
    var s := Run(format, key, lines);
    assert Begins(FinishedTurns(s, format, total)) == Begins(AllTurns(s));
  }

  /** Usage line k's record is among the parse's records. */
  lemma {:induction false} RecordOfLine(format: Format, key: string, lines: seq<Line>, n: nat, k: nat)
    requires k < n <= |lines| && lines[k].event.Usage?
    ensures RecordFor(format, key, lines, k) in TwoPass(format, key, lines, n)
    decreases n
  {
    hide RecordFor;
    if k < n - 1 {
      RecordOfLine(format, key, lines, n - 1, k);
    }
  }

  lemma {:induction false} LineOfRecord(format: Format, key: string, lines: seq<Line>, n: nat,
                                        r: Record) returns (k: nat)
    requires n <= |lines| && r in TwoPass(format, key, lines, n)
    ensures k < n && lines[k].event.Usage? && r == RecordFor(format, key, lines, k)
    decreases n
  {
    hide RecordFor;
    if lines[n - 1].event.Usage? && r == RecordFor(format, key, lines, n - 1) {
      k := n - 1;
    } else {
      k := LineOfRecord(format, key, lines, n - 1, r);
    }
  }

  /** All tokens a usage line puts into the context. */
  function InputOf(line: Line): nat
    requires line.event.Usage?
  {
    line.event.tally.uncached + line.event.tally.create + line.event.tally.read
  }

  lemma RecordShows(format: Format, key: string, lines: seq<Line>, k: nat)
    requires k < |lines| && lines[k].event.Usage?
    ensures var r := RecordFor(format, key, lines, k);
      && r.line == lines[k].num && r.ts == lines[k].ts && r.CtxInput() == InputOf(lines[k])
      && r.tally.output == lines[k].event.tally.output
  {
    RecordMeans(format, key, lines, k);
    hide RecordFor;
  }

  lemma RecordsAre(format: Format, key: string, lines: seq<Line>, total: nat, parsed: Parsed)
    requires Parses(format, key, lines, total, parsed)
    ensures parsed.records == TwoPass(format, key, lines, |lines|)
  {
    hide RowsFor, Picked, FinishedTurns, ByLine, Resolved;
    StreamingRefinesTwoPass(format, key, lines, |lines|);
    assert lines[..|lines|] == lines;
  }

  /** For every transcript in either format, usage line k has a context row exactly when
      its input is positive and it is the last usage of a turn: some line before it started
      a turn that nothing has ended since, and no other usage line comes after it before
      that turn ends. */
  lemma RowExactlyWhen(format: Format, key: string, lines: seq<Line>, total: nat, parsed: Parsed, k: nat)
    requires Numbered(lines) && Top(lines) <= total && Parses(format, key, lines, total, parsed)
    requires k < |lines| && lines[k].event.Usage?
    ensures (exists i | 0 <= i < |parsed.ctxTurns| :: parsed.ctxTurns[i].line == lines[k].num)
       <==> 0 < InputOf(lines[k]) && LastOfTurn(format, lines, k)
  {
    hide *;
    var r := RecordFor(format, key, lines, k);
    RecordsAre(format, key, lines, total, parsed);
    RecordOfLine(format, key, lines, |lines|, k);
    RecordShows(format, key, lines, k);
    RowsAreLastRecords(format, key, lines, total, parsed, r);
    TurnsHoldLasts(format, key, lines, total, k);
    HoldsMeans(FinishedTurns(Run(format, key, lines), format, total), r.line);
  }

  lemma HoldsMeans(turns: seq<Turn>, x: nat)
    ensures HoldsClosed(turns, x) <==> exists t | t in turns :: LastLineIs(t, x)
  {
  }

  /** Every context row is some usage line's, and shows that line's stamp, its uncached,
      created and cached input together, and its output. */
  lemma RowShowsItsLine(format: Format, key: string, lines: seq<Line>, total: nat, parsed: Parsed, i: nat)
    returns (k: nat)
    requires Numbered(lines) && Top(lines) <= total && Parses(format, key, lines, total, parsed)
    requires i < |parsed.ctxTurns|
    ensures k < |lines| && lines[k].event.Usage? && parsed.ctxTurns[i].line == lines[k].num
    ensures parsed.ctxTurns[i].ts == lines[k].ts && parsed.ctxTurns[i].input == InputOf(lines[k])
    ensures parsed.ctxTurns[i].output == lines[k].event.tally.output
  {
    var r := RowIsRecord(format, key, lines, total, parsed, i);
    hide *;
    RecordsAre(format, key, lines, total, parsed);
    k := LineOfRecord(format, key, lines, |lines|, r);
    RecordShows(format, key, lines, k);
  }

  lemma RowIsRecord(format: Format, key: string, lines: seq<Line>, total: nat, parsed: Parsed, i: nat)
    returns (r: Record)
    requires Parses(format, key, lines, total, parsed) && i < |parsed.ctxTurns|
    ensures r in parsed.records
    ensures var row := parsed.ctxTurns[i];
      row.ts == r.ts && row.line == r.line && row.input == r.CtxInput() && row.output == r.tally.output
  {
    hide Run, Picked, FinishedTurns, ByLine;
    var s := Run(format, key, lines);
    var turns, byLine := FinishedTurns(s, format, total), ByLine(s.records);
    r := Picked(turns, byLine)[i];
    assert parsed.ctxTurns[i] == RowOf(Picked(turns, byLine), i);
    PickedAreLasts(turns, byLine, r);
    var t :| t in turns && LastPositive(t, byLine) == Some(r);
    ByLineKeys(s.records, t.status[|t.status| - 1]);
  }
}
