/** What the streaming parser's turns and context rows are, for every event
    sequence in either format (backend/parse.py:143-167, 283-379). */
module TranscriptTurns {
  import opened Wrappers
  import opened Transcript

  /** Line numbers come from enumerating the transcript from 1. */
  ghost predicate Numbered(lines: seq<Line>) {
    lines != [] ==>
      && Numbered(lines[..|lines| - 1])
      && Top(lines[..|lines| - 1]) < lines[|lines| - 1].num
  }

  function Top(lines: seq<Line>): nat {
    if lines == [] then 0 else lines[|lines| - 1].num
  }

  // ------------------------------------------------------------------
  // Record lines within a span
  // ------------------------------------------------------------------

  /** The lines after `lo` up to `hi` that hold records, in order. */
  function Between(records: seq<Record>, lo: nat, hi: nat): seq<nat> {
    if records == [] then []
    else
      var line := records[|records| - 1].line;
      Between(records[..|records| - 1], lo, hi) + if lo < line <= hi then [line] else []
  }

  /** Record lines increase and stay within `top`. */
  ghost predicate Ascending(records: seq<Record>, top: nat) {
    records != [] ==>
      var last := records[|records| - 1].line;
      0 < last <= top && Ascending(records[..|records| - 1], last - 1)
  }

  lemma {:induction false} AscendingWeaken(records: seq<Record>, low: nat, high: nat)
    requires Ascending(records, low) && low <= high
    ensures Ascending(records, high)
  {
  }

  lemma {:induction false} AllWithin(records: seq<Record>, top: nat, r: Record)
    requires Ascending(records, top) && r in records
    ensures 0 < r.line <= top
  {
    var last := |records| - 1;
    if r != records[last] {
      assert r in records[..last];
      AllWithin(records[..last], records[last].line - 1, r);
    }
  }

  lemma {:induction false} BetweenBeyondTop(records: seq<Record>, lo: nat, hi: nat, top: nat)
    requires Ascending(records, top) && top <= hi
    ensures Between(records, lo, hi) == Between(records, lo, top)
  {
    if records != [] {
      var last := |records| - 1;
      var below := records[last].line - 1;
      BetweenBeyondTop(records[..last], lo, hi, below);
      BetweenBeyondTop(records[..last], lo, top, below);
    }
  }

  lemma {:induction false} BetweenNothing(records: seq<Record>, lo: nat, hi: nat)
    requires Ascending(records, lo)
    ensures Between(records, lo, hi) == []
  {
    if records != [] {
      var last := |records| - 1;
      AscendingWeaken(records[..last], records[last].line - 1, lo);
      BetweenNothing(records[..last], lo, hi);
    }
  }

  lemma BetweenGrows(records: seq<Record>, record: Record, lo: nat, hi: nat)
    ensures Between(records + [record], lo, hi)
         == Between(records, lo, hi) + if lo < record.line <= hi then [record.line] else []
  {
    assert (records + [record])[..|records|] == records;
  }

  // ------------------------------------------------------------------
  // The turns invariant
  // ------------------------------------------------------------------

  /** Closed turns: in order, ending no later than `limit`, no two sharing a line,
      each listing exactly the record lines after its begin up to its end. */
  ghost predicate TurnsOk(turns: seq<Turn>, records: seq<Record>, limit: nat) {
    turns != [] ==>
      var last := turns[|turns| - 1];
      && last.end.Some?
      && last.begin <= last.end.value <= limit
      && last.status == Between(records, last.begin, last.end.value)
      && TurnsOk(turns[..|turns| - 1], records, last.begin)
  }

  ghost predicate OpenOk(s: State, top: nat) {
    if s.open.None? then TurnsOk(s.turns, s.records, top)
    else
      var t := s.open.value;
      && t.end.None? && t.begin <= top
      && t.status == Between(s.records, t.begin, top)
      && TurnsOk(s.turns, s.records, t.begin)
  }

  ghost predicate Inv(s: State, top: nat) {
    Ascending(s.records, top) && OpenOk(s, top)
  }

  lemma {:induction false} TurnsOkWeaken(turns: seq<Turn>, records: seq<Record>, low: nat, high: nat)
    requires TurnsOk(turns, records, low) && low <= high
    ensures TurnsOk(turns, records, high)
  {
  }

  /** A record on a later line belongs to no closed turn. */
  lemma {:induction false} TurnsOkFrame(turns: seq<Turn>, records: seq<Record>, record: Record, limit: nat)
    requires TurnsOk(turns, records, limit) && limit < record.line
    ensures TurnsOk(turns, records + [record], limit)
  {
    if turns != [] {
      var last := turns[|turns| - 1];
      TurnsOkFrame(turns[..|turns| - 1], records, record, last.begin);
      BetweenGrows(records, record, last.begin, last.end.value);
    }
  }

  /** A line that is not a record leaves the invariant standing. */
  lemma InvAdvances(s: State, top: nat, next: nat)
    requires Inv(s, top) && top <= next
    ensures Inv(s, next)
  {
    AscendingWeaken(s.records, top, next);
    if s.open.None? {
      TurnsOkWeaken(s.turns, s.records, top, next);
    } else {
      BetweenBeyondTop(s.records, s.open.value.begin, next, top);
    }
  }

  lemma CloseKeepsInv(s: State, line: nat, ts: Option<int>)
    requires Inv(s, line)
    ensures Inv(Close(s, line, ts), line) && Close(s, line, ts).open.None?
  {
    if s.open.Some? {
      var turns := Close(s, line, ts).turns;
      assert turns[..|turns| - 1] == s.turns;
    }
  }

  lemma StartKeepsInv(s: State, line: nat, ts: Option<int>)
    requires Inv(s, line) && s.open.None?
    ensures Inv(Start(s, line, ts), line)
  {
    BetweenNothing(s.records, line, line);
  }

  lemma RecordsGrow(records: seq<Record>, record: Record, top: nat)
    requires Ascending(records, top) && top < record.line
    ensures Ascending(records + [record], record.line)
  {
    assert (records + [record])[..|records|] == records;
    AscendingWeaken(records, top, record.line - 1);
  }

  lemma UsageKeepsInv(s: State, format: Format, key: string, line: Line, top: nat)
    requires Inv(s, top) && top < line.num && line.event.Usage?
    ensures Inv(AppendUsage(s, format, key, line), line.num)
  {
    var record := Bill(format, key, line, s.anchor, s.text, s.firstTs);
    assert record.line == line.num;
    hide Bill, TurnsOk, Ascending, Between;
    RecordsGrow(s.records, record, top);
    if s.open.None? {
      TurnsOkFrame(s.turns, s.records, record, top);
      TurnsOkWeaken(s.turns, s.records + [record], top, line.num);
    } else {
      var t := s.open.value;
      TurnsOkFrame(s.turns, s.records, record, t.begin);
      BetweenGrows(s.records, record, t.begin, line.num);
      BetweenBeyondTop(s.records, t.begin, line.num, top);
    }
  }

  lemma {:induction false} ToolsKeepInv(s: State, line: Line, calls: seq<Call>, top: nat)
    requires Inv(s, top)
    ensures Inv(AppendTools(s, line, calls), top)
  {
    if calls != [] {
      ToolsKeepInv(s, line, calls[..|calls| - 1], top);
    }
  }

  lemma BoundaryKeepsInv(s: State, line: nat, ts: Option<int>)
    requires Inv(s, line)
    ensures Inv(TurnBoundary(s, line, ts), line)
  {
    CloseKeepsInv(s, line, ts);
    StartKeepsInv(Close(s, line, ts), line, ts);
  }

  lemma TurnEndKeepsInv(s: State, line: Line)
    requires Inv(s, line.num)
    ensures Inv(TurnEnded(s, line), line.num)
  {
    CloseKeepsInv(s, line.num, line.ts);
  }

  predicate OpensOrCloses(event: Event) {
    event.Boundary? || event.StepBegin? || event.TurnEnd?
  }

  lemma TurnEventKeepsInv(s: State, format: Format, key: string, line: Line)
    requires Inv(s, line.num) && OpensOrCloses(line.event)
    ensures Inv(Dispatch(s, format, key, line), line.num)
  {
    hide Inv, TurnBoundary, TurnEnded, StepBegun;
    match line.event
    case Boundary => BoundaryKeepsInv(s, line.num, line.ts);
    case StepBegin(_) => StepBeginKeepsInv(s, line);
    case TurnEnd => TurnEndKeepsInv(s, line);
  }

  lemma QuietKeepsInv(s: State, format: Format, key: string, line: Line)
    requires Inv(s, line.num) && !OpensOrCloses(line.event) && !line.event.Usage?
    ensures Inv(Dispatch(s, format, key, line), line.num)
  {
    hide Inv, AppendTools;
    if line.event.Message? {
      var heard := s.(text := s.text + line.event.chars);
      OnlyTurnsMatter(s, heard, line.num);
      ToolsKeepInv(heard, line, line.event.calls, line.num);
    } else {
      OnlyTurnsMatter(s, Dispatch(s, format, key, line), line.num);
    }
  }

  lemma StepKeepsInv(s: State, format: Format, key: string, line: Line, top: nat)
    requires Inv(s, top) && top < line.num
    ensures Inv(Step(s, format, key, line), line.num)
  {
    var stamped := Stamp(s, line.ts);
    hide Inv, AppendUsage, AppendTool, AppendTools, NoteResult, TurnBoundary, TurnEnded, StepBegun;
    OnlyTurnsMatter(s, stamped, top);
    InvAdvances(stamped, top, line.num);
    if line.event.Usage? {
      UsageKeepsInv(stamped, format, key, line, top);
    } else {
      hide Dispatch;
      if OpensOrCloses(line.event) {
        TurnEventKeepsInv(stamped, format, key, line);
      } else {
        QuietKeepsInv(stamped, format, key, line);
      }
    }
  }

  lemma StepBeginKeepsInv(s: State, line: Line)
    requires Inv(s, line.num) && line.event.StepBegin?
    ensures Inv(StepBegun(s, line), line.num)
  {
    var closed := Close(s, line.num, line.ts);
    CloseKeepsInv(s, line.num, line.ts);
    StartKeepsInv(closed.(turnId := line.event.turnId), line.num, line.ts);
  }

  lemma OnlyTurnsMatter(s: State, t: State, top: nat)
    requires Inv(s, top) && s.records == t.records && s.turns == t.turns && s.open == t.open
    ensures Inv(t, top)
  {
  }

  lemma {:induction false} RunKeepsInv(format: Format, key: string, lines: seq<Line>)
    requires Numbered(lines)
    ensures Inv(Run(format, key, lines), Top(lines))
  {
    if lines != [] {
      var before := lines[..|lines| - 1];
      RunKeepsInv(format, key, before);
      StepKeepsInv(Run(format, key, before), format, key, lines[|lines| - 1], Top(before));
    }
  }

  // ------------------------------------------------------------------
  // The finished turns
  // ------------------------------------------------------------------

  /** An unfinished turn reaches to the transcript's end. */
  function EndOf(t: Turn, total: nat): nat {
    if t.end.Some? then t.end.value else total
  }

  /** Turns in order with disjoint spans, only the last possibly unfinished, each
      listing exactly the record lines in its span. */
  ghost predicate FinalTurnsOk(turns: seq<Turn>, records: seq<Record>, total: nat) {
    turns != [] ==>
      var last := turns[|turns| - 1];
      && last.begin <= EndOf(last, total) <= total
      && last.status == Between(records, last.begin, EndOf(last, total))
      && TurnsOk(turns[..|turns| - 1], records, last.begin)
  }

  /** For every transcript in either format, the finished turns are in order, share
      no line, and list exactly the records seen while they were open. */
  lemma FinishedTurnsAreOk(format: Format, key: string, lines: seq<Line>, total: nat)
    requires Numbered(lines) && Top(lines) <= total
    ensures var s := Run(format, key, lines);
            && Ascending(s.records, total)
            && FinalTurnsOk(FinishedTurns(s, format, total), s.records, total)
            && (format.KimiCode? ==> TurnsOk(FinishedTurns(s, format, total), s.records, total))
  {
    hide Run, Between, Ascending;
    var s := Run(format, key, lines);
    RunKeepsInv(format, key, lines);
    InvAdvances(s, Top(lines), total);
    var turns := FinishedTurns(s, format, total);
    if s.open.Some? {
      assert turns[..|turns| - 1] == s.turns;
    }
  }

  /** Spans of two turns do not overlap. */
  lemma {:induction false} SpansDisjoint(turns: seq<Turn>, records: seq<Record>, total: nat, i: nat, j: nat)
    requires FinalTurnsOk(turns, records, total) && i < j < |turns|
    ensures turns[i].end.Some? && turns[i].begin <= turns[i].end.value <= turns[j].begin
    decreases |turns|
  {
    var last := |turns| - 1;
    if j == last {
      EndsBy(turns[..last], records, turns[last].begin, i);
    } else {
      TurnsOkWeaken(turns[..last], records, turns[last].begin, total);
      SpansDisjoint(turns[..last], records, total, i, j);
    }
  }

  lemma {:induction false} EndsBy(turns: seq<Turn>, records: seq<Record>, limit: nat, i: nat)
    requires TurnsOk(turns, records, limit) && i < |turns|
    ensures turns[i].end.Some? && turns[i].begin <= turns[i].end.value <= limit
  {
    var last := |turns| - 1;
    if i < last {
      EndsBy(turns[..last], records, turns[last].begin, i);
    }
  }

  // ------------------------------------------------------------------
  // Context rows
  // ------------------------------------------------------------------

  lemma {:induction false} StatusWithin(records: seq<Record>, lo: nat, hi: nat, i: nat)
    requires i < |Between(records, lo, hi)|
    ensures lo < Between(records, lo, hi)[i] <= hi
    ensures exists r | r in records :: r.line == Between(records, lo, hi)[i]
  {
    var last := |records| - 1;
    var shorter := Between(records[..last], lo, hi);
    if i < |shorter| {
      StatusWithin(records[..last], lo, hi, i);
      var r :| r in records[..last] && r.line == shorter[i];
      assert r in records;
    }
  }

  /** Distinct lines make the line index a faithful lookup. */
  lemma {:induction false} LookupFinds(records: seq<Record>, top: nat, r: Record)
    requires Ascending(records, top) && r in records
    ensures r.line in ByLine(records) && ByLine(records)[r.line] == r
  {
    var last := |records| - 1;
    if r != records[last] {
      assert r in records[..last];
      AllWithin(records[..last], records[last].line - 1, r);
      LookupFinds(records[..last], records[last].line - 1, r);
    }
  }

  ghost predicate LinesAscend(picked: seq<Record>, limit: nat) {
    picked != [] ==>
      var last := picked[|picked| - 1];
      last.line <= limit && last.CtxInput() > 0 && last.line > 0 && LinesAscend(picked[..|picked| - 1], last.line - 1)
  }

  lemma {:induction false} LinesAscendWeaken(picked: seq<Record>, low: nat, high: nat)
    requires LinesAscend(picked, low) && low <= high
    ensures LinesAscend(picked, high)
  {
  }

  lemma {:induction false} PickedAscend(turns: seq<Turn>, records: seq<Record>, limit: nat)
    requires TurnsOk(turns, records, limit)
    ensures LinesAscend(Picked(turns, ByLine(records)), limit)
  {
    if turns != [] {
      var last := turns[|turns| - 1];
      PickedAscend(turns[..|turns| - 1], records, last.begin);
      PickedLastAscends(turns, records, last.end.value);
      LinesAscendWeaken(Picked(turns, ByLine(records)), last.end.value, limit);
    }
  }

  lemma PickedLastAscends(turns: seq<Turn>, records: seq<Record>, end: nat)
    requires turns != []
    requires var last := turns[|turns| - 1];
      && last.begin <= end && last.status == Between(records, last.begin, end)
      && LinesAscend(Picked(turns[..|turns| - 1], ByLine(records)), last.begin)
    ensures LinesAscend(Picked(turns, ByLine(records)), end)
  {
    var last := turns[|turns| - 1];
    var before := Picked(turns[..|turns| - 1], ByLine(records));
    var found := LastPositive(last, ByLine(records));
    if found.Some? {
      var line := last.status[|last.status| - 1];
      StatusWithin(records, last.begin, end, |last.status| - 1);
      ByLineKeys(records, line);
      LinesAscendWeaken(before, last.begin, line - 1);
      assert (before + [found.value])[..|before|] == before;
    } else {
      assert before + [] == before;
      LinesAscendWeaken(before, last.begin, end);
    }
  }

  lemma {:induction false} AscendAt(picked: seq<Record>, limit: nat, i: nat, j: nat)
    requires LinesAscend(picked, limit) && i <= j < |picked|
    ensures picked[i].line <= picked[j].line <= limit && picked[i].CtxInput() > 0
    ensures i < j ==> picked[i].line < picked[j].line
    decreases |picked|
  {
    var last := |picked| - 1;
    if i < last {
      AscendAt(picked[..last], picked[last].line - 1, i, if j == last then last - 1 else j);
    }
  }

  lemma {:induction false} PickedAreLasts(turns: seq<Turn>, byLine: map<nat, Record>, r: Record)
    ensures r in Picked(turns, byLine) <==> exists t | t in turns :: LastPositive(t, byLine) == Some(r)
  {
    if turns != [] {
      PickedAreLasts(turns[..|turns| - 1], byLine, r);
      assert turns == turns[..|turns| - 1] + [turns[|turns| - 1]];
    }
  }

  function DeltaSum(rows: seq<CtxRow>): int {
    if rows == [] then 0 else DeltaSum(rows[..|rows| - 1]) + rows[|rows| - 1].delta
  }

  lemma {:induction false} DeltasTelescope(rows: seq<CtxRow>, picked: seq<Record>, n: nat)
    requires RowsFor(rows, picked) && n <= |rows|
    ensures DeltaSum(rows[..n]) == InputBefore(picked, n)
  {
    if n > 0 {
      DeltasTelescope(rows, picked, n - 1);
      assert rows[..n][..n - 1] == rows[..n - 1];
      assert rows[n - 1] == RowOf(picked, n - 1);
    }
  }

  /** The context rows of any transcript: numbered 1..n on strictly increasing lines,
      positive inputs, and deltas adding up over every prefix to the last row's input. */
  lemma ContextRows(format: Format, key: string, lines: seq<Line>, total: nat, parsed: Parsed)
    requires Numbered(lines) && Top(lines) <= total && Parses(format, key, lines, total, parsed)
    ensures forall i | 0 <= i < |parsed.ctxTurns| ::
      parsed.ctxTurns[i].idx == i + 1 && 0 < parsed.ctxTurns[i].input
    ensures forall i, j | 0 <= i < j < |parsed.ctxTurns| :: parsed.ctxTurns[i].line < parsed.ctxTurns[j].line
    ensures forall n | 0 < n <= |parsed.ctxTurns| :: DeltaSum(parsed.ctxTurns[..n]) == parsed.ctxTurns[n - 1].input
  {
    hide Run, Picked;
    var s := Run(format, key, lines);
    var turns := FinishedTurns(s, format, total);
    var picked := Picked(turns, ByLine(s.records));
    var rows := parsed.ctxTurns;
    FinishedTurnsAreOk(format, key, lines, total);
    FinalPickedAscend(turns, s.records, total);
    forall i | 0 <= i < |rows|
      ensures rows[i].idx == i + 1 && 0 < rows[i].input
    {
      AscendAt(picked, total, i, i);
      assert rows[i] == RowOf(picked, i);
    }
    forall i, j | 0 <= i < j < |rows|
      ensures rows[i].line < rows[j].line
    {
      AscendAt(picked, total, i, j);
      assert rows[i] == RowOf(picked, i) && rows[j] == RowOf(picked, j);
    }
    forall n | 0 < n <= |rows|
      ensures DeltaSum(rows[..n]) == rows[n - 1].input
    {
      DeltasTelescope(rows, picked, n);
      assert rows[n - 1] == RowOf(picked, n - 1);
    }
  }

  lemma FinalPickedAscend(turns: seq<Turn>, records: seq<Record>, total: nat)
    requires FinalTurnsOk(turns, records, total)
    ensures LinesAscend(Picked(turns, ByLine(records)), total)
  {
    if turns != [] {
      var last := turns[|turns| - 1];
      PickedAscend(turns[..|turns| - 1], records, last.begin);
      PickedLastAscends(turns, records, EndOf(last, total));
      LinesAscendWeaken(Picked(turns, ByLine(records)), EndOf(last, total), total);
    }
  }

  /** A record is the subject of a context row exactly when it is the last record of
      some turn and its input is positive. */
  lemma RowsAreLastRecords(format: Format, key: string, lines: seq<Line>, total: nat, parsed: Parsed, r: Record)
    requires Numbered(lines) && Top(lines) <= total && Parses(format, key, lines, total, parsed)
    requires r in parsed.records
    ensures (exists i | 0 <= i < |parsed.ctxTurns| :: parsed.ctxTurns[i].line == r.line)
       <==> r.CtxInput() > 0
            && exists t | t in FinishedTurns(Run(format, key, lines), format, total) :: LastLineIs(t, r.line)
  {
    hide Run, Picked;
    var s := Run(format, key, lines);
    var turns := FinishedTurns(s, format, total);
    var byLine := ByLine(s.records);
    var picked := Picked(turns, byLine);
    var rows := parsed.ctxTurns;
    FinishedTurnsAreOk(format, key, lines, total);
    LookupFinds(s.records, total, r);
    PickedAreLasts(turns, byLine, r);
    if i :| 0 <= i < |rows| && rows[i].line == r.line {
      assert rows[i] == RowOf(picked, i);
      PickedAreLasts(turns, byLine, picked[i]);
      var t :| t in turns && LastPositive(t, byLine) == Some(picked[i]);
      ByLineKeys(s.records, t.status[|t.status| - 1]);
      assert LastLineIs(t, r.line);
    }
    if t :| r.CtxInput() > 0 && t in turns && LastLineIs(t, r.line) {
      assert LastPositive(t, byLine) == Some(r);
      var i :| 0 <= i < |picked| && picked[i] == r;
      assert rows[i] == RowOf(picked, i);
    }
  }

  predicate LastLineIs(t: Turn, line: nat) {
    t.status != [] && t.status[|t.status| - 1] == line
  }
}
