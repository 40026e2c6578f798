/** The streaming parser refines a two-pass reading of the same lines: what it
    remembered when a usage line arrived is recovered by looking back over the
    lines before it (backend/parse.py:151-187, 283-331, 387-398, 568-587). */
module TranscriptReplies {
  import opened Wrappers
  import opened Transcript
  import Decimal
  import ModelLabels
  import Pricing

  // ------------------------------------------------------------------
  // Looking back
  // ------------------------------------------------------------------

  /** What closes the reply-latency anchor: a usage record, or a legacy TurnEnd. */
  predicate Disarms(format: Format, event: Event) {
    event.Usage? || (format.Legacy? && event.TurnEnd?)
  }

  function Anchor(format: Format, lines: seq<Line>): Option<int> {
    if lines == [] then None
    else
      var last := lines[|lines| - 1];
      if last.event.Boundary? then last.ts
      else if Disarms(format, last.event) then None
      else Anchor(format, lines[..|lines| - 1])
  }

  /** The turnId of the latest step.begin. */
  function StepId(lines: seq<Line>): Option<string> {
    if lines == [] then None
    else
      var last := lines[|lines| - 1];
      if last.event.StepBegin? then last.event.turnId else StepId(lines[..|lines| - 1])
  }

  /** Does line i start a turn: a boundary, or a step.begin naming another turn than
      the step.begin before it? */
  predicate StartsTurn(format: Format, lines: seq<Line>, i: nat)
    requires i < |lines|
  {
    || lines[i].event.Boundary?
    || (format.KimiCode? && lines[i].event.StepBegin? && lines[i].event.turnId != StepId(lines[..i]))
  }

  function Chars(format: Format, event: Event): nat {
    match event
    case Text(chars) => chars
    case Message(chars, _) => if format.KimiCode? then chars else 0
    case _ => 0
  }

  function CharSum(format: Format, lines: seq<Line>): nat {
    if lines == [] then 0
    else CharSum(format, lines[..|lines| - 1]) + Chars(format, lines[|lines| - 1].event)
  }

  function TextSince(format: Format, lines: seq<Line>): nat {
    if lines == [] || StartsTurn(format, lines, |lines| - 1) then 0
    else TextSince(format, lines[..|lines| - 1]) + Chars(format, lines[|lines| - 1].event)
  }

  function FirstStamp(lines: seq<Line>): Option<int> {
    if lines == [] then None else if lines[0].ts.Some? then lines[0].ts else FirstStamp(lines[1..])
  }

  // ------------------------------------------------------------------
  // What the looking-back functions mean
  // ------------------------------------------------------------------

  /** Boundary b is the latest arming event before k and nothing has closed it since. */
  ghost predicate ArmedBy(format: Format, lines: seq<Line>, b: nat, k: nat) {
    && b < k <= |lines|
    && lines[b].event.Boundary?
    && forall j | b < j < k :: !lines[j].event.Boundary? && !Disarms(format, lines[j].event)
  }

  lemma {:induction false} AnchorMeans(format: Format, lines: seq<Line>, k: nat, a: int)
    requires k <= |lines|
    ensures Anchor(format, lines[..k]) == Some(a)
       <==> exists b | 0 <= b < k :: ArmedBy(format, lines, b, k) && lines[b].ts == Some(a)
  {
    if k > 0 {
      assert lines[..k][..k - 1] == lines[..k - 1];
      AnchorMeans(format, lines, k - 1, a);
      var last := lines[k - 1].event;
      if last.Boundary? {
        assert ArmedBy(format, lines, k - 1, k);
      }
      forall b | 0 <= b < k - 1
        ensures ArmedBy(format, lines, b, k) <==>
          ArmedBy(format, lines, b, k - 1) && !last.Boundary? && !Disarms(format, last)
      {
      }
      if b :| 0 <= b < k && ArmedBy(format, lines, b, k) && lines[b].ts == Some(a) {
        if b < k - 1 {
          assert ArmedBy(format, lines, b, k - 1);
        }
      }
      if Anchor(format, lines[..k - 1]) == Some(a) && !last.Boundary? && !Disarms(format, last) {
        var b :| 0 <= b < k - 1 && ArmedBy(format, lines, b, k - 1) && lines[b].ts == Some(a);
        assert ArmedBy(format, lines, b, k);
      }
    }
  }

  /** The latest turn start before k is just before line s, if any. */
  ghost predicate LatestStart(format: Format, lines: seq<Line>, s: nat, k: nat) {
    && s <= k <= |lines|
    && (s > 0 ==> StartsTurn(format, lines, s - 1))
    && forall j | s <= j < k :: !StartsTurn(format, lines, j)
  }

  lemma {:induction false} TextMeans(format: Format, lines: seq<Line>, s: nat, k: nat)
    requires LatestStart(format, lines, s, k)
    ensures TextSince(format, lines[..k]) == CharSum(format, lines[s..k])
    decreases k
  {
    if k > 0 {
      assert lines[..k][..k - 1] == lines[..k - 1];
      assert StartsTurn(format, lines[..k], k - 1) == StartsTurn(format, lines, k - 1);
      if s < k {
        TextMeans(format, lines, s, k - 1);
        assert lines[s..k][..k - 1 - s] == lines[s..k - 1];
      }
    }
  }

  lemma {:induction false} FirstStampMeans(lines: seq<Line>, i: nat)
    requires i < |lines| && lines[i].ts.Some? && forall j | 0 <= j < i :: lines[j].ts.None?
    ensures FirstStamp(lines) == lines[i].ts
  {
    if i > 0 {
      FirstStampMeans(lines[1..], i - 1);
    }
  }

  // ------------------------------------------------------------------
  // The parser remembers exactly that
  // ------------------------------------------------------------------

  lemma {:induction false} FirstStampGrows(lines: seq<Line>, line: Line)
    ensures FirstStamp(lines + [line]) == if FirstStamp(lines).Some? then FirstStamp(lines) else line.ts
  {
    if lines != [] {
      assert (lines + [line])[1..] == lines[1..] + [line];
      FirstStampGrows(lines[1..], line);
    }
  }

  /** The remembered fields match the looking-back functions; and in a legacy
      transcript the anchor is closed whenever no turn is open. */
  ghost predicate Remembers(s: State, format: Format, lines: seq<Line>) {
    && s.anchor == Anchor(format, lines)
    && s.text == TextSince(format, lines)
    && s.firstTs == FirstStamp(lines)
    && (format.KimiCode? ==> s.turnId == StepId(lines))
    && (format.Legacy? && s.open.None? ==> s.anchor.None?)
  }

  lemma {:induction false} ToolsLeaveMemory(s: State, line: Line, calls: seq<Call>)
    ensures var t := AppendTools(s, line, calls);
            && t.records == s.records && t.open == s.open && t.anchor == s.anchor
            && t.text == s.text && t.firstTs == s.firstTs && t.turnId == s.turnId && t.results == s.results
  {
    if calls != [] {
      ToolsLeaveMemory(s, line, calls[..|calls| - 1]);
    }
  }

  lemma {:induction false} RunRemembers(format: Format, key: string, lines: seq<Line>)
    ensures Remembers(Run(format, key, lines), format, lines)
  {
    if lines != [] {
      var before, line := lines[..|lines| - 1], lines[|lines| - 1];
      RunRemembers(format, key, before);
      assert lines == before + [line];
      FirstStampGrows(before, line);
      StepRemembers(Run(format, key, before), format, key, before, line);
    }
  }

  /** A step.begin or a boundary: whether `line`, after `before`, starts a turn. */
  predicate Starts(format: Format, before: seq<Line>, line: Line) {
    line.event.Boundary? || (format.KimiCode? && line.event.StepBegin? && line.event.turnId != StepId(before))
  }

  lemma OneLineOn(format: Format, before: seq<Line>, line: Line)
    ensures Anchor(format, before + [line])
         == if line.event.Boundary? then line.ts
            else if Disarms(format, line.event) then None
            else Anchor(format, before)
    ensures TextSince(format, before + [line])
         == if Starts(format, before, line) then 0 else TextSince(format, before) + Chars(format, line.event)
    ensures StepId(before + [line]) == if line.event.StepBegin? then line.event.turnId else StepId(before)
  {
    assert (before + [line])[..|before|] == before;
  }

  lemma StepRemembers(s: State, format: Format, key: string, before: seq<Line>, line: Line)
    requires Remembers(s, format, before)
    requires FirstStamp(before + [line]) == if FirstStamp(before).Some? then FirstStamp(before) else line.ts
    ensures Remembers(Step(s, format, key, line), format, before + [line])
  {
    OneLineOn(format, before, line);
    hide Bill, FirstStamp, Anchor, TextSince, StepId;
    if line.event.Message? {
      var stamped := Stamp(s, line.ts);
      hide AppendTools;
      ToolsLeaveMemory(stamped.(text := stamped.text + line.event.chars), line, line.event.calls);
    }
  }

  // ------------------------------------------------------------------
  // Records
  // ------------------------------------------------------------------

  /** The record usage line k yields, read off the lines alone. */
  function RecordFor(format: Format, key: string, lines: seq<Line>, k: nat): Record
    requires k < |lines| && lines[k].event.Usage?
  {
    Bill(format, key, lines[k], Anchor(format, lines[..k]), TextSince(format, lines[..k]), FirstStamp(lines[..k + 1]))
  }

  function TwoPass(format: Format, key: string, lines: seq<Line>, n: nat): seq<Record>
    requires n <= |lines|
  {
    if n == 0 then []
    else TwoPass(format, key, lines, n - 1)
         + if lines[n - 1].event.Usage? then [RecordFor(format, key, lines, n - 1)] else []
  }

  lemma StepRecords(s: State, format: Format, key: string, line: Line)
    ensures Step(s, format, key, line).records
         == s.records
            + if line.event.Usage?
              then [Bill(format, key, line, s.anchor, s.text, Stamp(s, line.ts).firstTs)] else []
  {
    hide Bill;
    if line.event.Message? {
      var stamped := Stamp(s, line.ts);
      hide AppendTools;
      ToolsLeaveMemory(stamped.(text := stamped.text + line.event.chars), line, line.event.calls);
    }
  }

  /** The streaming parser's records are the two-pass reading's, in order. */
  lemma {:induction false} StreamingRefinesTwoPass(format: Format, key: string, lines: seq<Line>, n: nat)
    requires n <= |lines|
    ensures Run(format, key, lines[..n]).records == TwoPass(format, key, lines, n)
  {
    if n > 0 {
      var before := lines[..n - 1];
      assert lines[..n][..n - 1] == before;
      StreamingRefinesTwoPass(format, key, lines, n - 1);
      RunRemembers(format, key, before);
      assert lines[..n] == before + [lines[n - 1]];
      FirstStampGrows(before, lines[n - 1]);
      StepRecords(Run(format, key, before), format, key, lines[n - 1]);
    }
  }

  /** A record has reply latency d exactly when some boundary b is the latest arming
      event before it, nothing closed that anchor since, both are stamped and the
      record comes d >= 0 after it; and its text count is the text since the latest
      turn start. */
  lemma LatencyAndText(format: Format, key: string, lines: seq<Line>, k: nat, d: int) returns (s: nat)
    requires k < |lines| && lines[k].event.Usage?
    ensures RecordFor(format, key, lines, k).latency == Some(d)
       <==> exists b | 0 <= b < k :: ArmedBy(format, lines, b, k) && Follows(lines[b].ts, lines[k].ts, d)
    ensures LatestStart(format, lines, s, k) && forall r: nat | LatestStart(format, lines, r, k) :: r == s
    ensures RecordFor(format, key, lines, k).textChars == CharSum(format, lines[s..k])
  {
    hide *;
    s := LatestStartExists(format, lines, k);
    LatestStartBound(format, lines, s, k);
    forall r: nat | LatestStart(format, lines, r, k)
      ensures r == s
    {
      LatestStartUnique(format, lines, r, s, k);
    }
    TextMeans(format, lines, s, k);
    AnchorFollows(format, lines, k, lines[k].ts, d);
    GapIs(Anchor(format, lines[..k]), lines[k].ts, d);
    RecordForFields(format, key, lines, k);
  }

  lemma RecordForFields(format: Format, key: string, lines: seq<Line>, k: nat)
    requires k < |lines| && lines[k].event.Usage?
    ensures RecordFor(format, key, lines, k).latency == Gap(Anchor(format, lines[..k]), lines[k].ts)
    ensures RecordFor(format, key, lines, k).textChars == TextSince(format, lines[..k])
  {
    hide Anchor, TextSince, FirstStamp, Gap;
  }

  lemma LatestStartUnique(format: Format, lines: seq<Line>, r: nat, s: nat, k: nat)
    requires LatestStart(format, lines, r, k) && LatestStart(format, lines, s, k)
    ensures r == s
  {
    hide StartsTurn;
  }

  lemma LatestStartBound(format: Format, lines: seq<Line>, s: nat, k: nat)
    requires LatestStart(format, lines, s, k)
    ensures s <= k <= |lines|
  {
  }

  /** A record has its line's number, stamp and tokens.  A legacy record is known by its
      message id, if it has one that is not empty, and a kimi-code one by key and line.  A
      stamped record is labelled as of its own stamp, by its own model in kimi-code. */
  lemma RecordMeans(format: Format, key: string, lines: seq<Line>, k: nat)
    requires k < |lines| && lines[k].event.Usage?
    ensures var r, e := RecordFor(format, key, lines, k), lines[k].event;
      && r.line == lines[k].num && r.ts == lines[k].ts && r.tally == e.tally
      && (format.Legacy? ==> r.uuid == if e.messageId == Some("") then None else e.messageId)
      && (format.KimiCode? ==> r.uuid == Some(key + ":" + Decimal.Print(lines[k].num)))
      && (r.ts.Some? ==> r.model == ModelLabels.ModelFor(if format.Legacy? then None else e.model, r.ts))
  {
    hide Anchor, TextSince, FirstStamp, ModelLabels.ModelFor, Pricing.Round, Pricing.ComputeCost;
  }

  /** A record without a stamp is labelled as of the first stamped line up to it. */
  lemma UnstampedIsLabelledByFirstStamp(format: Format, key: string, lines: seq<Line>, k: nat, i: nat)
    requires k < |lines| && lines[k].event.Usage? && lines[k].ts.None?
    requires i <= k && lines[i].ts.Some? && forall j | 0 <= j < i :: lines[j].ts.None?
    ensures RecordFor(format, key, lines, k).model
         == ModelLabels.ModelFor(if format.Legacy? then None else lines[k].event.model, lines[i].ts)
  {
    hide Anchor, TextSince, FirstStamp, ModelLabels.ModelFor, Pricing.Round, Pricing.ComputeCost;
    assert forall j | 0 <= j <= k :: lines[..k + 1][j] == lines[j];
    FirstStampMeans(lines[..k + 1], i);
  }

  /** `to` comes d >= 0 after `from`, both being known. */
  predicate Follows(from: Option<int>, to: Option<int>, d: int) {
    from.Some? && to.Some? && 0 <= d && to.value - from.value == d
  }

  lemma GapIs(anchor: Option<int>, ts: Option<int>, d: int)
    ensures Gap(anchor, ts) == Some(d) <==> ts.Some? && 0 <= d && anchor == Some(ts.value - d)
  {
  }

  lemma AnchorFollows(format: Format, lines: seq<Line>, k: nat, ts: Option<int>, d: int)
    requires k <= |lines|
    ensures (exists b | 0 <= b < k :: ArmedBy(format, lines, b, k) && Follows(lines[b].ts, ts, d))
       <==> ts.Some? && 0 <= d && Anchor(format, lines[..k]) == Some(ts.value - d)
  {
    hide Anchor, ArmedBy;
    if ts.Some? {
      AnchorMeans(format, lines, k, ts.value - d);
    }
    if b :| 0 <= b < k && ArmedBy(format, lines, b, k) && Follows(lines[b].ts, ts, d) {
      assert lines[b].ts == Some(ts.value - d);
    }
    if ts.Some? && 0 <= d && Anchor(format, lines[..k]) == Some(ts.value - d) {
      var b :| 0 <= b < k && ArmedBy(format, lines, b, k) && lines[b].ts == Some(ts.value - d);
      assert Follows(lines[b].ts, ts, d);
    }
  }

  /** There is always a latest turn start to count from. */
  lemma {:induction false} LatestStartExists(format: Format, lines: seq<Line>, k: nat) returns (s: nat)
    requires k <= |lines|
    ensures LatestStart(format, lines, s, k)
  {
    if k == 0 || StartsTurn(format, lines, k - 1) {
      s := k;
    } else {
      s := LatestStartExists(format, lines, k - 1);
    }
  }

  // ------------------------------------------------------------------
  // Tool calls
  // ------------------------------------------------------------------

  /** A call, with the number and stamp of the line it stands on. */
  datatype Placed = Placed(line: nat, ts: Option<int>, call: Call)

  function PlacedOn(line: Line, calls: seq<Call>): seq<Placed> {
    seq(|calls|, i requires 0 <= i < |calls| => Placed(line.num, line.ts, calls[i]))
  }

  function CallsOn(format: Format, line: Line): seq<Placed> {
    match line.event
    case ToolCall(call) => PlacedOn(line, [call])
    case Message(_, calls) => if format.KimiCode? then PlacedOn(line, calls) else []
    case _ => []
  }

  function Calls(format: Format, lines: seq<Line>): seq<Placed> {
    if lines == [] then []
    else Calls(format, lines[..|lines| - 1]) + CallsOn(format, lines[|lines| - 1])
  }

  /** The verdict of the last result naming this call, wherever it stands in the file. */
  function LastResult(lines: seq<Line>, id: string): Option<bool> {
    if lines == [] then None
    else
      var last := lines[|lines| - 1].event;
      if last.ToolResult? && last.id == id && id != "" then Some(last.isError)
      else LastResult(lines[..|lines| - 1], id)
  }

  ghost predicate ToolsFor(tools: seq<ToolUse>, calls: seq<Placed>) {
    |tools| == |calls|
    && forall i | 0 <= i < |tools| ::
         tools[i] == ToolUse(calls[i].line, i, calls[i].ts, calls[i].call, None)
  }

  lemma {:induction false} AppendToolsFor(s: State, line: Line, calls: seq<Call>, earlier: seq<Placed>)
    requires ToolsFor(s.tools, earlier)
    ensures ToolsFor(AppendTools(s, line, calls).tools, earlier + PlacedOn(line, calls))
  {
    if calls == [] {
      assert earlier + PlacedOn(line, calls) == earlier;
    } else {
      var last := |calls| - 1;
      AppendToolsFor(s, line, calls[..last], earlier);
      PlacedLast(line, calls, earlier);
      ToolsForMore(AppendTools(s, line, calls[..last]), line, calls[last], earlier + PlacedOn(line, calls[..last]));
    }
  }

  lemma PlacedLast(line: Line, calls: seq<Call>, earlier: seq<Placed>)
    requires calls != []
    ensures var last := |calls| - 1;
      earlier + PlacedOn(line, calls)
      == earlier + PlacedOn(line, calls[..last]) + [Placed(line.num, line.ts, calls[last])]
  {
  }

  lemma ToolsForMore(s: State, line: Line, call: Call, earlier: seq<Placed>)
    requires ToolsFor(s.tools, earlier)
    ensures ToolsFor(AppendTool(s, line, call).tools, earlier + [Placed(line.num, line.ts, call)])
  {
  }

  lemma StepTools(s: State, format: Format, key: string, line: Line, earlier: seq<Placed>)
    requires ToolsFor(s.tools, earlier)
    ensures ToolsFor(Step(s, format, key, line).tools, earlier + CallsOn(format, line))
  {
    var stamped := Stamp(s, line.ts);
    hide ToolsFor, AppendTools, AppendTool;
    if line.event.Message? && format.KimiCode? {
      AppendToolsFor(stamped.(text := stamped.text + line.event.chars), line, line.event.calls, earlier);
    } else if line.event.ToolCall? {
      ToolsForMore(stamped, line, line.event.call, earlier);
      assert PlacedOn(line, [line.event.call]) == [Placed(line.num, line.ts, line.event.call)];
    } else {
      assert earlier + [] == earlier;
    }
  }

  lemma StepResults(s: State, format: Format, key: string, line: Line, id: string)
    ensures var after := Step(s, format, key, line).results;
            if line.event.ToolResult? && line.event.id == id && id != ""
            then id in after && after[id] == line.event.isError
            else (id in after <==> id in s.results) && (id in after ==> after[id] == s.results[id])
  {
    if line.event.Message? {
      var stamped := Stamp(s, line.ts);
      hide AppendTools;
      ToolsLeaveMemory(stamped.(text := stamped.text + line.event.chars), line, line.event.calls);
    }
  }

  lemma {:induction false} RunTools(format: Format, key: string, lines: seq<Line>)
    ensures ToolsFor(Run(format, key, lines).tools, Calls(format, lines))
  {
    if lines != [] {
      hide Step;
      RunTools(format, key, lines[..|lines| - 1]);
      StepTools(Run(format, key, lines[..|lines| - 1]), format, key, lines[|lines| - 1],
                Calls(format, lines[..|lines| - 1]));
    }
  }

  lemma {:induction false} RunResults(format: Format, key: string, lines: seq<Line>, id: string)
    ensures var results := Run(format, key, lines).results;
            LastResult(lines, id) == if id in results then Some(results[id]) else None
    ensures id == "" ==> id !in Run(format, key, lines).results
  {
    if lines != [] {
      hide Step;
      RunResults(format, key, lines[..|lines| - 1], id);
      StepResults(Run(format, key, lines[..|lines| - 1]), format, key, lines[|lines| - 1], id);
    }
  }

  /** The reported tool calls are the transcript's calls in order, each on its own line and
      with that line's stamp, with the verdict of the last result naming it, and no line
      churn when that is an error. */
  lemma ReportedTools(format: Format, key: string, lines: seq<Line>, total: nat, parsed: Parsed, i: nat)
    requires Parses(format, key, lines, total, parsed) && i < |Calls(format, lines)|
    ensures |parsed.tools| == |Calls(format, lines)|
    ensures var tool, placed := parsed.tools[i], Calls(format, lines)[i];
            && tool.idx == i && tool.line == placed.line && tool.ts == placed.ts
            && tool.call.name == placed.call.name && tool.call.id == placed.call.id
            && tool.isError == LastResult(lines, placed.call.id)
            && tool.call.churn == if tool.isError == Some(true) then Churn(0, 0) else placed.call.churn
  {
    hide Run, RowsFor, Picked;
    RunTools(format, key, lines);
    RunResults(format, key, lines, Calls(format, lines)[i].call.id);
    var s := Run(format, key, lines);
    assert parsed.tools[i] == Resolve(s.tools[i], s.results);
  }
}
