/** The streaming transcript parser (backend/parse.py, `_ParseState` and its
    handlers).  A decoded JSON line is an `Event`; blank and undecodable lines are
    absent, so line numbers increase but need not be consecutive. */
module Transcript {
  import opened Wrappers
  import Decimal
  import ModelLabels
  import Pricing

  datatype Format = Legacy | KimiCode

  datatype Churn = Churn(added: nat, deleted: nat)

  datatype Call = Call(name: string, id: string, churn: Churn)

  datatype Event =
    | Boundary                                    // TurnBegin; turn.prompt and turn.steer
    | TurnEnd                                     // legacy only
    | StepBegin(turnId: Option<string>)           // kimi-code only
    | Text(chars: nat)                            // a content part; 0 unless it is text
    | Message(chars: nat, calls: seq<Call>)       // kimi-code assistant message
    | ToolCall(call: Call)
    | ToolResult(id: string, isError: bool)
    | Usage(messageId: Option<string>, model: Option<string>, tally: Pricing.Tally)
    | Other                                       // metadata and everything unhandled

  datatype Line = Line(num: nat, ts: Option<int>, event: Event)

  datatype Record = Record(line: nat, uuid: Option<string>, ts: Option<int>, model: string, tally: Pricing.Tally,
                           cost: int, textChars: nat, latency: Option<int>) {
    function CtxInput(): nat {
      tally.uncached + tally.create + tally.read
    }
  }

  datatype ToolUse = ToolUse(line: nat, idx: nat, ts: Option<int>, call: Call, isError: Option<bool>)

  datatype Turn = Turn(begin: nat, beginTs: Option<int>, end: Option<nat>, endTs: Option<int>, status: seq<nat>)

  datatype State = State(records: seq<Record>, tools: seq<ToolUse>, results: map<string, bool>,
                         turns: seq<Turn>, open: Option<Turn>, turnId: Option<string>,
                         anchor: Option<int>, text: nat, firstTs: Option<int>)

  const START: State := State([], [], map[], [], None, None, None, 0, None)

  // ------------------------------------------------------------------
  // One line, as a function on states
  // ------------------------------------------------------------------

  function Close(s: State, line: nat, ts: Option<int>): State {
    if s.open.None? then s
    else s.(turns := s.turns + [s.open.value.(end := Some(line), endTs := ts)], open := None)
  }

  function Start(s: State, line: nat, ts: Option<int>): State {
    s.(open := Some(Turn(line, ts, None, None, [])), text := 0)
  }

  function TurnBoundary(s: State, line: nat, ts: Option<int>): State {
    Start(Close(s, line, ts), line, ts).(anchor := ts)
  }

  /** The gap from the anchor, when both ends are stamped and in order. */
  function Gap(anchor: Option<int>, ts: Option<int>): Option<int> {
    if anchor.Some? && ts.Some? && anchor.value <= ts.value then Some(ts.value - anchor.value) else None
  }

  function Uuid(format: Format, key: string, line: nat, messageId: Option<string>): Option<string> {
    match format
    case Legacy => if messageId == Some("") then None else messageId
    case KimiCode => Some(key + ":" + Decimal.Print(line))
  }

  /** The record a usage line yields, given what the parser remembers. */
  function Bill(format: Format, key: string, line: Line, anchor: Option<int>, text: nat, firstTs: Option<int>): Record
    requires line.event.Usage?
  {
    var wire := if format.Legacy? then None else line.event.model;
    var model := ModelLabels.ModelFor(wire, if line.ts.Some? then line.ts else firstTs);
    Record(line.num, Uuid(format, key, line.num, line.event.messageId), line.ts, model, line.event.tally,
           Pricing.Round(Pricing.ComputeCost(Some(model), line.event.tally), 100), text, Gap(anchor, line.ts))
  }

  function AppendUsage(s: State, format: Format, key: string, line: Line): State
    requires line.event.Usage?
  {
    s.(records := s.records + [Bill(format, key, line, s.anchor, s.text, s.firstTs)],
       anchor := None,
       open := if s.open.Some? then Some(s.open.value.(status := s.open.value.status + [line.num])) else None)
  }

  function AppendTool(s: State, line: Line, call: Call): State {
    s.(tools := s.tools + [ToolUse(line.num, |s.tools|, line.ts, call, None)])
  }

  function AppendTools(s: State, line: Line, calls: seq<Call>): State {
    if calls == [] then s
    else AppendTool(AppendTools(s, line, calls[..|calls| - 1]), line, calls[|calls| - 1])
  }

  function NoteResult(s: State, id: string, isError: bool): State {
    if id == "" then s else s.(results := s.results[id := isError])
  }

  function StepBegun(s: State, line: Line): State
    requires line.event.StepBegin?
  {
    if line.event.turnId == s.turnId then s
    else Start(Close(s, line.num, line.ts).(turnId := line.event.turnId), line.num, line.ts)
  }

  /** A legacy TurnEnd with no turn open does nothing. */
  function TurnEnded(s: State, line: Line): State {
    if s.open.None? then s else Close(s, line.num, line.ts).(anchor := None)
  }

  function Dispatch(s: State, format: Format, key: string, line: Line): State {
    match line.event
    case Boundary => TurnBoundary(s, line.num, line.ts)
    case TurnEnd => if format.Legacy? then TurnEnded(s, line) else s
    case StepBegin(_) => if format.KimiCode? then StepBegun(s, line) else s
    case Text(chars) => s.(text := s.text + chars)
    case Message(chars, calls) =>
      if format.KimiCode? then AppendTools(s.(text := s.text + chars), line, calls) else s
    case ToolCall(call) => AppendTool(s, line, call)
    case ToolResult(id, isError) => NoteResult(s, id, isError)
    case Usage(_, _, _) => AppendUsage(s, format, key, line)
    case Other => s
  }

  function Stamp(s: State, ts: Option<int>): State {
    if s.firstTs.None? then s.(firstTs := ts) else s
  }

  function Step(s: State, format: Format, key: string, line: Line): State {
    Dispatch(Stamp(s, line.ts), format, key, line)
  }

  function Run(format: Format, key: string, lines: seq<Line>): State {
    if lines == [] then START
    else Step(Run(format, key, lines[..|lines| - 1]), format, key, lines[|lines| - 1])
  }

  /** The turns after the shared tail: kimi-code closes a dangling turn at the
      transcript's last line, legacy keeps it without an end. */
  function FinishedTurns(s: State, format: Format, total: nat): seq<Turn> {
    if s.open.None? then s.turns
    else match format
      case Legacy => s.turns + [s.open.value]
      case KimiCode => Close(s, total, None).turns
  }

  // ------------------------------------------------------------------
  // The tail's two passes
  // ------------------------------------------------------------------

  function Resolve(tool: ToolUse, results: map<string, bool>): ToolUse {
    if tool.call.id == "" || tool.call.id !in results then tool
    else
      var failed := results[tool.call.id];
      tool.(isError := Some(failed), call := if failed then tool.call.(churn := Churn(0, 0)) else tool.call)
  }

  function Resolved(tools: seq<ToolUse>, results: map<string, bool>): seq<ToolUse> {
    seq(|tools|, i requires 0 <= i < |tools| => Resolve(tools[i], results))
  }

  function ByLine(records: seq<Record>): map<nat, Record> {
    if records == [] then map[]
    else ByLine(records[..|records| - 1])[records[|records| - 1].line := records[|records| - 1]]
  }

  /** A turn's last record, when there is one and its input is positive. */
  function LastPositive(turn: Turn, byLine: map<nat, Record>): Option<Record> {
    if turn.status == [] then None
    else
      var line := turn.status[|turn.status| - 1];
      if line in byLine && byLine[line].CtxInput() > 0 then Some(byLine[line]) else None
  }

  /** The records that become context rows. */
  function Picked(turns: seq<Turn>, byLine: map<nat, Record>): seq<Record> {
    if turns == [] then []
    else
      var last := LastPositive(turns[|turns| - 1], byLine);
      Picked(turns[..|turns| - 1], byLine) + if last.Some? then [last.value] else []
  }

  datatype CtxRow = CtxRow(idx: nat, ts: Option<int>, line: nat, input: nat, output: nat, delta: int)

  function InputBefore(picked: seq<Record>, i: nat): nat
    requires i <= |picked|
  {
    if i == 0 then 0 else picked[i - 1].CtxInput()
  }

  function RowOf(picked: seq<Record>, i: nat): CtxRow
    requires i < |picked|
  {
    var r := picked[i];
    CtxRow(i + 1, r.ts, r.line, r.CtxInput(), r.tally.output, r.CtxInput() - InputBefore(picked, i))
  }

  ghost predicate RowsFor(rows: seq<CtxRow>, picked: seq<Record>) {
    |rows| == |picked| && forall i | 0 <= i < |rows| :: rows[i] == RowOf(picked, i)
  }

  method ResolveToolErrors(tools: seq<ToolUse>, results: map<string, bool>) returns (resolved: seq<ToolUse>)
    ensures resolved == Resolved(tools, results)
  {
    resolved := tools;
    for i := 0 to |tools|
      invariant |resolved| == |tools|
      invariant forall j | 0 <= j < i :: resolved[j] == Resolve(tools[j], results)
      invariant forall j | i <= j < |tools| :: resolved[j] == tools[j]
    {
      var id := resolved[i].call.id;
      if id != "" && id in results {
        resolved := resolved[i := resolved[i].(isError := Some(results[id]))];
        if results[id] {
          resolved := resolved[i := resolved[i].(call := resolved[i].call.(churn := Churn(0, 0)))];
        }
      }
    }
  }

  method CtxTurnsFromTurns(turns: seq<Turn>, records: seq<Record>) returns (rows: seq<CtxRow>)
    ensures RowsFor(rows, Picked(turns, ByLine(records)))
  {
    var byLine: map<nat, Record> := map[];
    for i := 0 to |records|
      invariant byLine == ByLine(records[..i])
    {
      assert records[..i + 1][..i] == records[..i];
      byLine := byLine[records[i].line := records[i]];
    }
    assert records[..|records|] == records;
    rows := [];
    var previous: nat, index: nat := 0, 0;
    ghost var picked: seq<Record> := [];
    for i := 0 to |turns|
      invariant picked == Picked(turns[..i], byLine)
      invariant RowsFor(rows, picked)
      invariant index == |rows| && previous == InputBefore(picked, |picked|)
    {
      assert turns[..i + 1][..i] == turns[..i];
      var turn := turns[i];
      if turn.status == [] {
        assert Picked(turns[..i + 1], byLine) == picked;
        continue;
      }
      var line := turn.status[|turn.status| - 1];
      if line !in byLine || byLine[line].CtxInput() <= 0 {
        assert Picked(turns[..i + 1], byLine) == picked;
        continue;
      }
      var record := byLine[line];
      index := index + 1;
      var input := record.CtxInput();
      rows := rows + [CtxRow(index, record.ts, line, input, record.tally.output, input - previous)];
      previous := input;
      ByLineKeys(records, line);
      RowsExtend(rows, picked, record);
      picked := picked + [record];
    }
    assert turns[..|turns|] == turns;
  }

  lemma {:induction false} ByLineKeys(records: seq<Record>, line: nat)
    requires line in ByLine(records)
    ensures ByLine(records)[line] in records && ByLine(records)[line].line == line
  {
    var last := |records| - 1;
    if records[last].line != line {
      ByLineKeys(records[..last], line);
    }
  }

  lemma RowsExtend(rows: seq<CtxRow>, picked: seq<Record>, record: Record)
    requires rows != [] && RowsFor(rows[..|rows| - 1], picked)
    requires rows[|rows| - 1] == RowOf(picked + [record], |picked|)
    ensures RowsFor(rows, picked + [record])
  {
    forall i | 0 <= i < |rows|
      ensures rows[i] == RowOf(picked + [record], i)
    {
      if i < |picked| {
        assert rows[i] == rows[..|rows| - 1][i] == RowOf(picked, i);
      }
    }
  }

  // ------------------------------------------------------------------
  // The mutable parser
  // ------------------------------------------------------------------

  class ParseState {
    const format: Format
    const key: string
    var records: seq<Record>
    var tools: seq<ToolUse>
    var results: map<string, bool>
    var turns: seq<Turn>
    var open: Option<Turn>
    var turnId: Option<string>
    var anchor: Option<int>
    var text: nat
    var firstTs: Option<int>

    ghost function View(): State
      reads this
    {
      State(records, tools, results, turns, open, turnId, anchor, text, firstTs)
    }

    constructor (format: Format, key: string)
      ensures this.format == format && this.key == key && View() == START
    {
      this.format, this.key := format, key;
      records, tools, results, turns, open := [], [], map[], [], None;
      turnId, anchor, text, firstTs := None, None, 0, None;
    }

    method CloseTurn(line: nat, ts: Option<int>)
      modifies this
      ensures View() == Close(old(View()), line, ts)
    {
      if open.Some? {
        turns := turns + [open.value.(end := Some(line), endTs := ts)];
        open := None;
      }
    }

    method StartTurn(line: nat, ts: Option<int>)
      modifies this
      ensures View() == Start(old(View()), line, ts)
    {
      open := Some(Turn(line, ts, None, None, []));
      text := 0;
    }

    method OnBoundary(line: nat, ts: Option<int>)
      modifies this
      ensures View() == TurnBoundary(old(View()), line, ts)
    {
      CloseTurn(line, ts);
      StartTurn(line, ts);
      anchor := ts;
    }

    /** The anchor is consumed whether or not it yields a latency. */
    method ConsumeReplyLatency(ts: Option<int>) returns (latency: Option<int>)
      modifies this
      ensures latency == Gap(old(anchor), ts)
      ensures View() == old(View()).(anchor := None)
    {
      latency := None;
      if anchor.Some? && ts.Some? {
        var delta := ts.value - anchor.value;
        if delta >= 0 {
          latency := Some(delta);
        }
      }
      anchor := None;
    }

    method AppendUsageRecord(line: Line)
      requires line.event.Usage?
      modifies this
      ensures View() == AppendUsage(old(View()), format, key, line)
    {
      var latency := ConsumeReplyLatency(line.ts);
      var wire := if format.Legacy? then None else line.event.model;
      var model := ModelLabels.ModelFor(wire, if line.ts.Some? then line.ts else firstTs);
      var cost := Pricing.ComputeCost(Some(model), line.event.tally);
      records := records + [Record(line.num, Uuid(format, key, line.num, line.event.messageId), line.ts, model,
                                   line.event.tally, Pricing.Round(cost, 100), text, latency)];
      if open.Some? {
        open := Some(open.value.(status := open.value.status + [line.num]));
      }
    }

    method AppendToolUse(line: Line, call: Call)
      modifies this
      ensures View() == AppendTool(old(View()), line, call)
    {
      tools := tools + [ToolUse(line.num, |tools|, line.ts, call, None)];
    }

    method AppendMessage(line: Line, chars: nat, calls: seq<Call>)
      modifies this
      ensures View() == AppendTools(old(View()).(text := old(text) + chars), line, calls)
    {
      text := text + chars;
      ghost var before := View();
      for i := 0 to |calls|
        invariant View() == AppendTools(before, line, calls[..i])
      {
        assert calls[..i + 1][..i] == calls[..i];
        AppendToolUse(line, calls[i]);
      }
      assert calls[..|calls|] == calls;
    }

    method OnStepBegin(line: Line)
      requires line.event.StepBegin?
      modifies this
      ensures View() == StepBegun(old(View()), line)
    {
      if line.event.turnId != turnId {
        CloseTurn(line.num, line.ts);
        turnId := line.event.turnId;
        StartTurn(line.num, line.ts);
      }
    }

    method OnTurnEnd(line: Line)
      modifies this
      ensures View() == TurnEnded(old(View()), line)
    {
      if open.Some? {
        CloseTurn(line.num, line.ts);
        anchor := None;
      }
    }

    method OnLine(line: Line)
      modifies this
      ensures View() == Step(old(View()), format, key, line)
    {
      hide Close, Start, TurnBoundary, StepBegun, TurnEnded, AppendTools, AppendUsage;
      if line.ts.Some? && firstTs.None? {
        firstTs := line.ts;
      }
      match line.event
      case Boundary => OnBoundary(line.num, line.ts);
      case TurnEnd =>
        if format.Legacy? {
          OnTurnEnd(line);
        }
      case StepBegin(_) =>
        if format.KimiCode? {
          OnStepBegin(line);
        }
      case Text(chars) => text := text + chars;
      case Message(chars, calls) =>
        if format.KimiCode? {
          AppendMessage(line, chars, calls);
        }
      case ToolCall(call) => AppendToolUse(line, call);
      case ToolResult(id, isError) =>
        if id != "" {
          results := results[id := isError];
        }
      case Usage(_, _, _) => AppendUsageRecord(line);
      case Other =>
    }

    method FinishTurns(total: nat)
      modifies this
      ensures turns == FinishedTurns(old(View()), format, total)
      ensures records == old(records) && tools == old(tools) && results == old(results)
    {
      if format.KimiCode? {
        CloseTurn(total, None);
      } else if open.Some? {
        turns := turns + [open.value];
      }
    }
  }

  datatype Parsed = Parsed(records: seq<Record>, ctxTurns: seq<CtxRow>, tools: seq<ToolUse>)

  ghost predicate Parses(format: Format, key: string, lines: seq<Line>, total: nat, parsed: Parsed) {
    var s := Run(format, key, lines);
    && parsed.records == s.records
    && RowsFor(parsed.ctxTurns, Picked(FinishedTurns(s, format, total), ByLine(s.records)))
    && parsed.tools == Resolved(s.tools, s.results)
  }

  method Parse(format: Format, key: string, lines: seq<Line>, total: nat) returns (parsed: Parsed)
    ensures Parses(format, key, lines, total, parsed)
  {
    var st := new ParseState(format, key);
    for i := 0 to |lines|
      invariant fresh(st) && st.format == format && st.key == key
      invariant st.View() == Run(format, key, lines[..i])
    {
      assert lines[..i + 1][..i] == lines[..i];
      st.OnLine(lines[i]);
    }
    assert lines[..|lines|] == lines;
    st.FinishTurns(total);
    var tools := ResolveToolErrors(st.tools, st.results);
    var rows := CtxTurnsFromTurns(st.turns, st.records);
    parsed := Parsed(st.records, rows, tools);
  }
}
