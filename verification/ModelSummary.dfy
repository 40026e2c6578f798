/** Per-model cost rows and their total (backend/api.py, `_per_model_row` and
    `_session_total`), over the costs stored per record (backend/parse.py,
    `_append_usage_record`). */
module ModelSummary {
  import opened Wrappers
  import opened Pricing
  import ModelLabels
  import Transcript

  /** Rounding grains in 1e-8 USD: six and four decimals. */
  const SIX: int := 100
  const FOUR: int := 10000

  datatype Billed = Billed(model: string, tally: Tally)

  /** The stored cost_usd. */
  function StoredCost(r: Billed): int {
    Round(ComputeCost(Some(r.model), r.tally), SIX)
  }

  /** The parser stores, for any usage line in either format, the rounded cost of its
      tally under the label it stores, and that label is priced exactly. */
  lemma ParserStoresThisCost(format: Transcript.Format, key: string, line: Transcript.Line,
                             anchor: Option<int>, text: nat, firstTs: Option<int>)
    requires line.event.Usage?
    ensures var r := Transcript.Bill(format, key, line, anchor, text, firstTs);
            r.cost == StoredCost(Billed(r.model, r.tally)) && Resolve(Some(r.model)) == Exact(r.model)
  {
    hide Resolve, Round, ComputeCost;
    var wire := if format.Legacy? then None else line.event.model;
    ModelLabels.LabelPricesExactly(wire, if line.ts.Some? then line.ts else firstTs);
  }

  // The SQL group of one model: its size, summed tokens and summed stored cost.

  function Turns(rs: seq<Billed>, m: string): nat {
    if rs == [] then 0 else (if rs[0].model == m then 1 else 0) + Turns(rs[1..], m)
  }

  function Tokens(rs: seq<Billed>, m: string): Tally {
    if rs == [] then Tally(0, 0, 0, 0)
    else if rs[0].model == m then Plus(rs[0].tally, Tokens(rs[1..], m))
    else Tokens(rs[1..], m)
  }

  function Stored(rs: seq<Billed>, m: string): int {
    if rs == [] then 0 else (if rs[0].model == m then StoredCost(rs[0]) else 0) + Stored(rs[1..], m)
  }

  datatype Buckets = Buckets(uncached: int, read: int, output: int) {
    function Sum(): int {
      uncached + read + output
    }
  }

  datatype Row = Row(costTotal: int, buckets: Buckets)

  function PerModelRow(rs: seq<Billed>, m: string): Row {
    var t := Tokens(rs, m);
    var rates := RateFor(Some(m));
    Row(Round(Stored(rs, m), FOUR),
        Buckets(Round(t.uncached * rates.uncached, FOUR),
                Round(t.read * rates.read, FOUR),
                Round(t.output * rates.output, FOUR)))
  }

  function Rows(rs: seq<Billed>, models: seq<string>): seq<Row> {
    if models == [] then [] else [PerModelRow(rs, models[0])] + Rows(rs, models[1..])
  }

  /** The plain column sums. */
  function ColumnSums(rows: seq<Row>): Row {
    if rows == [] then Row(0, Buckets(0, 0, 0)) else Join(rows[0], ColumnSums(rows[1..]))
  }

  function Join(a: Row, b: Row): Row {
    Row(a.costTotal + b.costTotal,
        Buckets(a.buckets.uncached + b.buckets.uncached,
                a.buckets.read + b.buckets.read,
                a.buckets.output + b.buckets.output))
  }

  function SessionTotal(rows: seq<Row>): Row {
    var sums := ColumnSums(rows);
    Row(Round(sums.costTotal, FOUR),
        Buckets(Round(sums.buckets.uncached, FOUR),
                Round(sums.buckets.read, FOUR),
                Round(sums.buckets.output, FOUR)))
  }

  predicate Within(a: int, b: int, bound: int) {
    -bound <= a - b <= bound
  }

  predicate Balanced(row: Row, bound: int) {
    Within(row.costTotal, row.buckets.Sum(), bound)
  }

  // ------------------------------------------------------------------
  // One model
  // ------------------------------------------------------------------

  /** Per-record rounding drifts by at most half a micro-dollar a record. */
  lemma {:induction false} StoredNearExact(rs: seq<Billed>, m: string)
    ensures Within(Stored(rs, m), ComputeCost(Some(m), Tokens(rs, m)), 50 * Turns(rs, m))
  {
    hide Round, ComputeCost;
    if rs == [] {
      EmptyCost(Some(m));
    } else {
      StoredNearExact(rs[1..], m);
      if rs[0].model == m {
        RoundError(ComputeCost(Some(m), rs[0].tally), 50);
        CostIsAdditive(Some(m), rs[0].tally, Tokens(rs[1..], m));
      }
    }
  }

  lemma EmptyCost(model: Option<string>)
    ensures ComputeCost(model, Tally(0, 0, 0, 0)) == 0
  {
  }

  /** A row's cost and the sum of its buckets: the drift plus four roundings. */
  lemma RowBalances(rs: seq<Billed>, m: string)
    ensures Balanced(PerModelRow(rs, m), 50 * Turns(rs, m) + 20000)
  {
    hide Round;
    var t := Tokens(rs, m);
    var rates := RateFor(Some(m));
    StoredNearExact(rs, m);
    CreateIsFree(Some(m));
    assert t.create * rates.create == 0;
    RoundError(Stored(rs, m), 5000);
    RoundError(t.uncached * rates.uncached, 5000);
    RoundError(t.read * rates.read, 5000);
    RoundError(t.output * rates.output, 5000);
  }

  // ------------------------------------------------------------------
  // All models
  // ------------------------------------------------------------------

  function AllTurns(rs: seq<Billed>, models: seq<string>): nat {
    if models == [] then 0 else Turns(rs, models[0]) + AllTurns(rs, models[1..])
  }

  function Occurrences(models: seq<string>, m: string): nat {
    if models == [] then 0 else (if models[0] == m then 1 else 0) + Occurrences(models[1..], m)
  }

  ghost predicate Distinct(models: seq<string>) {
    models != [] ==> models[0] !in models[1..] && Distinct(models[1..])
  }

  lemma {:induction false} DistinctOccurrences(models: seq<string>, m: string)
    requires Distinct(models)
    ensures Occurrences(models, m) == if m in models then 1 else 0
  {
    if models != [] {
      DistinctOccurrences(models[1..], m);
    }
  }

  lemma {:induction false} OneRecordMore(rs: seq<Billed>, models: seq<string>)
    requires rs != []
    ensures AllTurns(rs, models) == AllTurns(rs[1..], models) + Occurrences(models, rs[0].model)
  {
    if models != [] {
      OneRecordMore(rs, models[1..]);
    }
  }

  /** Every record falls in exactly one group. */
  lemma {:induction false} GroupsPartition(rs: seq<Billed>, models: seq<string>)
    requires Distinct(models) && forall r | r in rs :: r.model in models
    ensures AllTurns(rs, models) == |rs|
  {
    if rs == [] {
      NoTurns(models);
    } else {
      GroupsPartition(rs[1..], models);
      OneRecordMore(rs, models);
      DistinctOccurrences(models, rs[0].model);
    }
  }

  lemma {:induction false} NoTurns(models: seq<string>)
    ensures AllTurns([], models) == 0
  {
    if models != [] {
      NoTurns(models[1..]);
    }
  }

  lemma SumsUnfold(rs: seq<Billed>, models: seq<string>)
    requires models != []
    ensures ColumnSums(Rows(rs, models)) == Join(PerModelRow(rs, models[0]), ColumnSums(Rows(rs, models[1..])))
  {
    hide PerModelRow, Join;
    var rest := Rows(rs, models[1..]);
    assert Rows(rs, models) == [PerModelRow(rs, models[0])] + rest;
    assert ([PerModelRow(rs, models[0])] + rest)[1..] == rest;
  }

  lemma JoinBalances(a: Row, b: Row, x: int, y: int)
    requires Balanced(a, x) && Balanced(b, y)
    ensures Balanced(Join(a, b), x + y)
  {
  }

  function Bound(rs: seq<Billed>, models: seq<string>): int {
    50 * AllTurns(rs, models) + 20000 * |models|
  }

  lemma BoundSplits(rs: seq<Billed>, models: seq<string>)
    requires models != []
    ensures Bound(rs, models) == 50 * Turns(rs, models[0]) + 20000 + Bound(rs, models[1..])
  {
    hide Turns;
  }

  lemma {:induction false} RowsBalance(rs: seq<Billed>, models: seq<string>)
    ensures Balanced(ColumnSums(Rows(rs, models)), Bound(rs, models))
  {
    hide *;
    if models == [] {
      NothingBalances(rs);
    } else {
      RowsBalance(rs, models[1..]);
      RowBalances(rs, models[0]);
      SumsUnfold(rs, models);
      BoundSplits(rs, models);
      JoinBalances(PerModelRow(rs, models[0]), ColumnSums(Rows(rs, models[1..])),
                   50 * Turns(rs, models[0]) + 20000, Bound(rs, models[1..]));
    }
  }

  lemma NothingBalances(rs: seq<Billed>)
    ensures Balanced(ColumnSums(Rows(rs, [])), Bound(rs, []))
  {
    assert Rows(rs, []) == [];
  }

  // ------------------------------------------------------------------
  // The total's own rounding
  // ------------------------------------------------------------------

  /** Four decimals at most. */
  ghost predicate Whole(x: int) {
    exists k: int :: x == k * FOUR
  }

  ghost predicate WholeRow(row: Row) {
    Whole(row.costTotal) && Whole(row.buckets.uncached) && Whole(row.buckets.read) && Whole(row.buckets.output)
  }

  lemma WholeSum(x: int, y: int)
    requires Whole(x) && Whole(y)
    ensures Whole(x + y)
  {
    var a: int :| x == a * FOUR;
    var b: int :| y == b * FOUR;
    assert x + y == (a + b) * FOUR;
  }

  lemma RoundWhole(x: int)
    requires Whole(x)
    ensures Round(x, FOUR) == x
  {
    var k: int :| x == k * FOUR;
    RoundFixesMultiples(k);
  }

  lemma RowIsWhole(rs: seq<Billed>, m: string)
    ensures WholeRow(PerModelRow(rs, m))
  {
    hide Round;
    var t := Tokens(rs, m);
    var rates := RateFor(Some(m));
    var a := RoundIsMultiple(Stored(rs, m), FOUR);
    var b := RoundIsMultiple(t.uncached * rates.uncached, FOUR);
    var c := RoundIsMultiple(t.read * rates.read, FOUR);
    var d := RoundIsMultiple(t.output * rates.output, FOUR);
  }

  lemma {:induction false} SumsAreWhole(rs: seq<Billed>, models: seq<string>)
    ensures WholeRow(ColumnSums(Rows(rs, models)))
  {
    hide PerModelRow, Round;
    if models == [] {
      assert 0 == 0 * FOUR;
    } else {
      SumsUnfold(rs, models);
      hide Whole, ColumnSums, Rows;
      var row, rest := PerModelRow(rs, models[0]), ColumnSums(Rows(rs, models[1..]));
      SumsAreWhole(rs, models[1..]);
      RowIsWhole(rs, models[0]);
      WholeSum(row.costTotal, rest.costTotal);
      WholeSum(row.buckets.uncached, rest.buckets.uncached);
      WholeSum(row.buckets.read, rest.buckets.read);
      WholeSum(row.buckets.output, rest.buckets.output);
    }
  }

  /** Rounding the sums again changes nothing: the total is the plain sum of the rows. */
  lemma TotalIsSumOfRows(rs: seq<Billed>, models: seq<string>)
    ensures SessionTotal(Rows(rs, models)) == ColumnSums(Rows(rs, models))
  {
    hide Round, Whole;
    var sums := ColumnSums(Rows(rs, models));
    SumsAreWhole(rs, models);
    RoundWhole(sums.costTotal);
    RoundWhole(sums.buckets.uncached);
    RoundWhole(sums.buckets.read);
    RoundWhole(sums.buckets.output);
  }

  /** For n records over m models the reported total and the reported buckets differ
      by at most n * 0.0000005 + m * 0.0002 USD. */
  lemma TotalBalances(rs: seq<Billed>, models: seq<string>)
    requires Distinct(models) && forall r | r in rs :: r.model in models
    ensures Balanced(SessionTotal(Rows(rs, models)), 50 * |rs| + 20000 * |models|)
  {
    hide SessionTotal, ColumnSums, Rows, Balanced;
    TotalIsSumOfRows(rs, models);
    RowsBalance(rs, models);
    GroupsPartition(rs, models);
  }

  // ------------------------------------------------------------------
  // What each bucket holds
  // ------------------------------------------------------------------

  function OnlyUncached(t: Tally): Tally {
    Tally(t.uncached, 0, 0, 0)
  }

  function OnlyRead(t: Tally): Tally {
    Tally(0, 0, t.read, 0)
  }

  function OnlyOutput(t: Tally): Tally {
    Tally(0, 0, 0, t.output)
  }

  /** What one kind of token of all the records costs, each record at its own model's rates. */
  function Spent(rs: seq<Billed>, part: Tally -> Tally): int {
    if rs == [] then 0 else ComputeCost(Some(rs[0].model), part(rs[0].tally)) + Spent(rs[1..], part)
  }

  function SpentOn(rs: seq<Billed>, m: string, part: Tally -> Tally): int {
    if rs == [] then 0
    else (if rs[0].model == m then ComputeCost(Some(m), part(rs[0].tally)) else 0) + SpentOn(rs[1..], m, part)
  }

  /** `part` picks out some of a tally's columns. */
  ghost predicate Picks(part: Tally -> Tally) {
    part(Tally(0, 0, 0, 0)) == Tally(0, 0, 0, 0) && forall a, b :: part(Plus(a, b)) == Plus(part(a), part(b))
  }

  lemma PartsPick()
    ensures Picks(OnlyUncached) && Picks(OnlyRead) && Picks(OnlyOutput)
  {
  }

  lemma {:induction false} SpentOnTokens(rs: seq<Billed>, m: string, part: Tally -> Tally)
    requires Picks(part)
    ensures SpentOn(rs, m, part) == ComputeCost(Some(m), part(Tokens(rs, m)))
  {
    hide ComputeCost;
    if rs == [] {
      EmptyCost(Some(m));
    } else {
      SpentOnTokens(rs[1..], m, part);
      if rs[0].model == m {
        CostIsAdditive(Some(m), part(rs[0].tally), part(Tokens(rs[1..], m)));
      }
    }
  }

  lemma PartCosts(m: string, t: Tally)
    ensures ComputeCost(Some(m), OnlyUncached(t)) == t.uncached * RateFor(Some(m)).uncached
    ensures ComputeCost(Some(m), OnlyRead(t)) == t.read * RateFor(Some(m)).read
    ensures ComputeCost(Some(m), OnlyOutput(t)) == t.output * RateFor(Some(m)).output
  {
    hide RateFor;
  }

  /** All three buckets at once, and their bounds. */
  predicate BucketsWithin(b: Buckets, uncached: int, read: int, output: int, bound: int) {
    Within(b.uncached, uncached, bound) && Within(b.read, read, bound) && Within(b.output, output, bound)
  }

  lemma RowBucketsAreSpent(rs: seq<Billed>, m: string)
    ensures BucketsWithin(PerModelRow(rs, m).buckets, SpentOn(rs, m, OnlyUncached), SpentOn(rs, m, OnlyRead),
                          SpentOn(rs, m, OnlyOutput), 5000)
  {
    var t, rates := Tokens(rs, m), RateFor(Some(m));
    PartsPick();
    SpentOnTokens(rs, m, OnlyUncached);
    SpentOnTokens(rs, m, OnlyRead);
    SpentOnTokens(rs, m, OnlyOutput);
    PartCosts(m, t);
    hide Round, ComputeCost, RateFor, SpentOn, Tokens, Picks, OnlyUncached, OnlyRead, OnlyOutput;
    RoundError(t.uncached * rates.uncached, 5000);
    RoundError(t.read * rates.read, 5000);
    RoundError(t.output * rates.output, 5000);
  }

  function SpentOnAll(rs: seq<Billed>, models: seq<string>, part: Tally -> Tally): int {
    if models == [] then 0 else SpentOn(rs, models[0], part) + SpentOnAll(rs, models[1..], part)
  }

  lemma {:induction false} OneMoreSpent(rs: seq<Billed>, models: seq<string>, part: Tally -> Tally)
    requires rs != []
    ensures SpentOnAll(rs, models, part)
         == SpentOnAll(rs[1..], models, part)
            + Occurrences(models, rs[0].model) * ComputeCost(Some(rs[0].model), part(rs[0].tally))
  {
    hide ComputeCost;
    if models != [] {
      OneMoreSpent(rs, models[1..], part);
    }
  }

  lemma {:induction false} SpentPartitions(rs: seq<Billed>, models: seq<string>, part: Tally -> Tally)
    requires Distinct(models) && forall r | r in rs :: r.model in models
    ensures SpentOnAll(rs, models, part) == Spent(rs, part)
  {
    hide ComputeCost;
    if rs == [] {
      NothingSpent(models, part);
    } else {
      SpentPartitions(rs[1..], models, part);
      OneMoreSpent(rs, models, part);
      DistinctOccurrences(models, rs[0].model);
    }
  }

  lemma {:induction false} NothingSpent(models: seq<string>, part: Tally -> Tally)
    ensures SpentOnAll([], models, part) == 0
  {
    if models != [] {
      NothingSpent(models[1..], part);
    }
  }

  lemma {:induction false} SumsAreSpent(rs: seq<Billed>, models: seq<string>)
    ensures BucketsWithin(ColumnSums(Rows(rs, models)).buckets, SpentOnAll(rs, models, OnlyUncached),
                          SpentOnAll(rs, models, OnlyRead), SpentOnAll(rs, models, OnlyOutput), 5000 * |models|)
  {
    hide PerModelRow, SpentOn, Rows, ColumnSums, OnlyUncached, OnlyRead, OnlyOutput;
    if models == [] {
      NoSums(rs);
    } else {
      SumsAreSpent(rs, models[1..]);
      RowBucketsAreSpent(rs, models[0]);
      SumsUnfold(rs, models);
    }
  }

  lemma NoSums(rs: seq<Billed>)
    ensures ColumnSums(Rows(rs, [])) == Row(0, Buckets(0, 0, 0))
  {
    assert Rows(rs, []) == [];
  }

  /** Each reported bucket of the total is, to half a grain a model, what that kind of token
      alone cost over all the records: uncached input, cached input and output. */
  lemma TotalBucketsAreSpent(rs: seq<Billed>, models: seq<string>)
    requires Distinct(models) && forall r | r in rs :: r.model in models
    ensures BucketsWithin(SessionTotal(Rows(rs, models)).buckets, Spent(rs, OnlyUncached), Spent(rs, OnlyRead),
                          Spent(rs, OnlyOutput), 5000 * |models|)
  {
    hide *;
    TotalIsSumOfRows(rs, models);
    SumsAreSpent(rs, models);
    SpentPartitions(rs, models, OnlyUncached);
    SpentPartitions(rs, models, OnlyRead);
    SpentPartitions(rs, models, OnlyOutput);
  }

  /** The stored costs of all the records. */
  function StoredAll(rs: seq<Billed>): int {
    if rs == [] then 0 else StoredCost(rs[0]) + StoredAll(rs[1..])
  }

  function StoredOn(rs: seq<Billed>, models: seq<string>): int {
    if models == [] then 0 else Stored(rs, models[0]) + StoredOn(rs, models[1..])
  }

  lemma {:induction false} OneMoreStored(rs: seq<Billed>, models: seq<string>)
    requires rs != []
    ensures StoredOn(rs, models) == StoredOn(rs[1..], models) + Occurrences(models, rs[0].model) * StoredCost(rs[0])
  {
    hide StoredCost;
    if models != [] {
      OneMoreStored(rs, models[1..]);
    }
  }

  lemma {:induction false} NothingStored(models: seq<string>)
    ensures StoredOn([], models) == 0
  {
    if models != [] {
      NothingStored(models[1..]);
    }
  }

  lemma {:induction false} StoredPartitions(rs: seq<Billed>, models: seq<string>)
    requires Distinct(models) && forall r | r in rs :: r.model in models
    ensures StoredOn(rs, models) == StoredAll(rs)
  {
    hide StoredCost;
    if rs == [] {
      NothingStored(models);
    } else {
      StoredPartitions(rs[1..], models);
      OneMoreStored(rs, models);
      DistinctOccurrences(models, rs[0].model);
    }
  }

  lemma {:induction false} CostsAreStored(rs: seq<Billed>, models: seq<string>)
    ensures Within(ColumnSums(Rows(rs, models)).costTotal, StoredOn(rs, models), 5000 * |models|)
  {
    hide Rows, ColumnSums, Stored, PerModelRow;
    if models == [] {
      NoSums(rs);
    } else {
      CostsAreStored(rs, models[1..]);
      RowCostIsStored(rs, models[0]);
      SumsUnfold(rs, models);
    }
  }

  lemma RowCostIsStored(rs: seq<Billed>, m: string)
    ensures Within(PerModelRow(rs, m).costTotal, Stored(rs, m), 5000)
  {
    hide Round, RateFor;
    RoundError(Stored(rs, m), 5000);
  }

  /** The reported total cost is, to half a grain a model, the sum of the stored costs. */
  lemma TotalCostIsStored(rs: seq<Billed>, models: seq<string>)
    requires Distinct(models) && forall r | r in rs :: r.model in models
    ensures Within(SessionTotal(Rows(rs, models)).costTotal, StoredAll(rs), 5000 * |models|)
  {
    hide *;
    TotalIsSumOfRows(rs, models);
    CostsAreStored(rs, models);
    StoredPartitions(rs, models);
  }
}
