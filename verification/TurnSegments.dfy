/** The client's two turn segmenters for one session: the dashboard's two-pointer
    walk (src/app.jsx, `txToDashData`) and the Inspector's walk over one merged,
    line-sorted list (src/context-growth-view.jsx, `computeTurnStats`). */
module TurnSegments {
  import opened Wrappers

  datatype Usage = Usage(line: int, ctx: int, ts: Option<int>)

  datatype Item = Text(line: int) | Use(line: int, usage: Usage)

  // ------------------------------------------------------------------
  // Stable sorting by line
  // ------------------------------------------------------------------

  function Insert(x: Item, sorted: seq<Item>): seq<Item> {
    if sorted == [] || x.line <= sorted[0].line then [x] + sorted
    else [sorted[0]] + Insert(x, sorted[1..])
  }

  /** The stable sort: an element stays before later ones of the same line. */
  function Sort(items: seq<Item>): seq<Item> {
    if items == [] then [] else Insert(items[0], Sort(items[1..]))
  }

  ghost predicate ByLine(items: seq<Item>) {
    items != [] ==> (forall y | y in items[1..] :: items[0].line <= y.line) && ByLine(items[1..])
  }

  lemma {:induction false} SortOrders(items: seq<Item>)
    ensures ByLine(Sort(items)) && multiset(Sort(items)) == multiset(items)
  {
    if items != [] {
      SortOrders(items[1..]);
      InsertOrders(items[0], Sort(items[1..]));
      InsertKeeps(items[0], Sort(items[1..]));
      assert items == [items[0]] + items[1..];
    }
  }

  lemma ByLineCons(y: Item, rest: seq<Item>)
    requires ByLine(rest) && forall z | z in rest :: y.line <= z.line
    ensures ByLine([y] + rest)
  {
    assert ([y] + rest)[1..] == rest;
  }

  lemma {:induction false} InsertKeeps(x: Item, sorted: seq<Item>)
    ensures multiset(Insert(x, sorted)) == multiset{x} + multiset(sorted)
    ensures forall y :: y in Insert(x, sorted) <==> y == x || y in sorted
  {
    if sorted != [] && sorted[0].line < x.line {
      InsertKeeps(x, sorted[1..]);
      assert Insert(x, sorted) == [sorted[0]] + Insert(x, sorted[1..]);
      hide *;
      assert sorted == [sorted[0]] + sorted[1..];
    }
  }

  lemma {:induction false} InsertOrders(x: Item, sorted: seq<Item>)
    requires ByLine(sorted)
    ensures ByLine(Insert(x, sorted))
  {
    if sorted == [] || x.line <= sorted[0].line {
      ByLineCons(x, sorted);
    } else {
      InsertOrders(x, sorted[1..]);
      InsertKeeps(x, sorted[1..]);
      ByLineCons(sorted[0], Insert(x, sorted[1..]));
    }
  }

  function Merge(a: seq<Item>, b: seq<Item>): seq<Item> {
    if a == [] then b
    else if b == [] then a
    else if a[0].line <= b[0].line then [a[0]] + Merge(a[1..], b)
    else [b[0]] + Merge(a, b[1..])
  }

  lemma {:induction false} InsertMerge(x: Item, a: seq<Item>, b: seq<Item>)
    ensures Insert(x, Merge(a, b)) == Merge(Insert(x, a), b)
    decreases |a| + |b|
  {
    if b == [] {
    } else if a == [] {
      InsertIntoSecond(x, b);
      assert Insert(x, a) == [x] && Merge(a, b) == b;
    } else if a[0].line <= b[0].line {
      if a[0].line < x.line {
        InsertMerge(x, a[1..], b);
        assert Insert(x, a) == [a[0]] + Insert(x, a[1..]);
      } else {
        assert ([x] + a)[1..] == a;
      }
    } else if b[0].line < x.line {
      InsertMerge(x, a, b[1..]);
      assert Insert(x, a)[0].line > b[0].line;
    } else {
      assert ([x] + a)[1..] == a;
    }
  }

  lemma {:induction false} InsertIntoSecond(x: Item, b: seq<Item>)
    ensures Insert(x, b) == Merge([x], b)
  {
    if b != [] && b[0].line < x.line {
      InsertIntoSecond(x, b[1..]);
    }
  }

  /** Sorting one list after another merges their sorts, ties to the first list. */
  lemma {:induction false} SortConcat(a: seq<Item>, b: seq<Item>)
    ensures Sort(a + b) == Merge(Sort(a), Sort(b))
  {
    if a == [] {
      assert a + b == b;
    } else {
      assert (a + b)[1..] == a[1..] + b;
      SortConcat(a[1..], b);
      InsertMerge(a[0], Sort(a[1..]), Sort(b));
    }
  }

  // ------------------------------------------------------------------
  // The two walks
  // ------------------------------------------------------------------

  function Flush(turn: seq<Usage>): seq<seq<Usage>> {
    if turn == [] then [] else [turn]
  }

  /** Two pointers: every bound at or before a usage's line closes the open turn. */
  function DashWalk(bounds: seq<Item>, usages: seq<Item>, cur: seq<Usage>): seq<seq<Usage>>
    requires forall u | u in usages :: u.Use?
    decreases |bounds| + |usages|
  {
    if usages == [] then Flush(cur)
    else if bounds != [] && bounds[0].line <= usages[0].line then
      Flush(cur) + DashWalk(bounds[1..], usages, [])
    else DashWalk(bounds, usages[1..], cur + [usages[0].usage])
  }

  /** One pass: usages before the first text belong to no turn. */
  function StatsWalk(items: seq<Item>, cur: Option<seq<Usage>>): seq<seq<Usage>> {
    if items == [] then if cur.Some? then Flush(cur.value) else []
    else if items[0].Text? then
      (if cur.Some? then Flush(cur.value) else []) + StatsWalk(items[1..], Some([]))
    else if cur.Some? then StatsWalk(items[1..], Some(cur.value + [items[0].usage]))
    else StatsWalk(items[1..], None)
  }

  ghost predicate Texts(items: seq<Item>) {
    forall x | x in items :: x.Text?
  }

  ghost predicate Uses(items: seq<Item>) {
    forall x | x in items :: x.Use?
  }

  /** Inside a turn the two walks agree. */
  lemma {:induction false} WalksAgreeInside(bounds: seq<Item>, usages: seq<Item>, cur: seq<Usage>)
    requires Texts(bounds) && Uses(usages)
    ensures DashWalk(bounds, usages, cur) == StatsWalk(Merge(bounds, usages), Some(cur))
    decreases |bounds| + |usages|
  {
    var merged := Merge(bounds, usages);
    if usages == [] {
      OnlyTexts(bounds, cur);
      assert Merge(bounds, []) == bounds;
    } else if bounds != [] && bounds[0].line <= usages[0].line {
      assert merged[0] == bounds[0] && merged[1..] == Merge(bounds[1..], usages);
      WalksAgreeInside(bounds[1..], usages, []);
    } else {
      assert merged[0] == usages[0] && merged[1..] == Merge(bounds, usages[1..]);
      WalksAgreeInside(bounds, usages[1..], cur + [usages[0].usage]);
    }
  }

  lemma {:induction false} OnlyTexts(bounds: seq<Item>, cur: seq<Usage>)
    requires Texts(bounds)
    ensures StatsWalk(bounds, Some(cur)) == Flush(cur)
  {
    if bounds != [] {
      OnlyTexts(bounds[1..], []);
    }
  }

  /** The usages the dashboard walk puts before the first bound. */
  function Before(first: int, usages: seq<Item>): seq<Usage>
    requires forall u | u in usages :: u.Use?
  {
    if usages == [] || first <= usages[0].line then []
    else [usages[0].usage] + Before(first, usages[1..])
  }

  /** From the first bound on, the dashboard's turns are the Inspector's turns. */
  lemma {:induction false} WalksAgree(bounds: seq<Item>, usages: seq<Item>, cur: seq<Usage>)
    requires bounds != [] && Texts(bounds) && Uses(usages)
    ensures DashWalk(bounds, usages, cur)
            == Flush(cur + Before(bounds[0].line, usages)) + StatsWalk(Merge(bounds, usages), None)
    decreases |usages|
  {
    var merged := Merge(bounds, usages);
    if usages == [] {
      assert merged == bounds && cur + [] == cur;
      OnlyTexts(bounds[1..], []);
    } else if bounds[0].line <= usages[0].line {
      assert merged[0] == bounds[0] && merged[1..] == Merge(bounds[1..], usages);
      WalksAgreeInside(bounds[1..], usages, []);
      assert cur + [] == cur;
    } else {
      var next := cur + [usages[0].usage];
      assert merged[0] == usages[0] && merged[1..] == Merge(bounds, usages[1..]);
      WalksAgree(bounds, usages[1..], next);
      assert next + Before(bounds[0].line, usages[1..]) == cur + Before(bounds[0].line, usages);
    }
  }

  // ------------------------------------------------------------------
  // What each segmenter selects
  // ------------------------------------------------------------------

  /** The last usage of each turn, refusals and interrupts dropped. */
  function LastNonZero(turns: seq<seq<Usage>>): seq<Usage> {
    if turns == [] then []
    else
      var t := turns[0];
      (if t != [] && t[|t| - 1].ctx != 0 then [t[|t| - 1]] else []) + LastNonZero(turns[1..])
  }

  function Stamped(us: seq<Usage>): seq<Usage> {
    if us == [] then []
    else (if us[0].ts.Some? then [us[0]] else []) + Stamped(us[1..])
  }

  /** A usage is selected exactly when it is the last of some turn and not zero. */
  lemma {:induction false} SelectedExactly(turns: seq<seq<Usage>>, u: Usage)
    ensures u in LastNonZero(turns) <==> u.ctx != 0 && exists t | t in turns :: t != [] && t[|t| - 1] == u
  {
    if turns != [] {
      SelectedExactly(turns[1..], u);
      assert turns == [turns[0]] + turns[1..];
    }
  }

  lemma {:induction false} StampedExactly(us: seq<Usage>, u: Usage)
    ensures u in Stamped(us) <==> u in us && u.ts.Some?
  {
    if us != [] {
      StampedExactly(us[1..], u);
    }
  }

  /** The last usages of the non-empty turns, in order. */
  function Lasts(turns: seq<seq<Usage>>): seq<Usage> {
    if turns == [] then []
    else (if turns[0] != [] then [turns[0][|turns[0]| - 1]] else []) + Lasts(turns[1..])
  }

  function NonZero(us: seq<Usage>): seq<Usage> {
    if us == [] then [] else (if us[0].ctx != 0 then [us[0]] else []) + NonZero(us[1..])
  }

  lemma {:induction false} LastNonZeroIs(turns: seq<seq<Usage>>)
    ensures LastNonZero(turns) == NonZero(Lasts(turns))
  {
    if turns != [] {
      LastNonZeroIs(turns[1..]);
      var first := if turns[0] != [] then [turns[0][|turns[0]| - 1]] else [];
      assert (first + Lasts(turns[1..]))[|first|..] == Lasts(turns[1..]);
    }
  }

  /** Item i is a usage after some text with no other item, or a text, right after it. */
  predicate Closes(items: seq<Item>, i: nat)
    requires i < |items|
  {
    && items[i].Use?
    && (exists j | 0 <= j < i :: items[j].Text?)
    && (i + 1 < |items| ==> items[i + 1].Text?)
  }

  /** The usages at those items from i on, in order. */
  function Closing(items: seq<Item>, i: nat): seq<Usage>
    requires i <= |items|
    decreases |items| - i
  {
    if i == |items| then []
    else (if Closes(items, i) then [items[i].usage] else []) + Closing(items, i + 1)
  }

  /** Where the walk stands before item i: its open turn is empty exactly after a text. */
  ghost predicate Standing(items: seq<Item>, i: nat, cur: Option<seq<Usage>>)
    requires i <= |items|
  {
    && (cur.Some? <==> exists j | 0 <= j < i :: items[j].Text?)
    && (cur.Some? && i > 0 ==> if items[i - 1].Text? then cur.value == []
                               else cur.value != [] && cur.value[|cur.value| - 1] == items[i - 1].usage)
  }

  /** What the open turn will contribute if the walk closes it now. */
  function Pending(items: seq<Item>, i: nat, cur: Option<seq<Usage>>): seq<Usage>
    requires i <= |items|
  {
    if cur.Some? && cur.value != [] && (i < |items| ==> items[i].Text?) then [cur.value[|cur.value| - 1]] else []
  }

  lemma TextStands(items: seq<Item>, i: nat, cur: Option<seq<Usage>>)
    requires i < |items| && items[i].Text? && Standing(items, i, cur)
    ensures Standing(items, i + 1, Some([])) && Pending(items, i + 1, Some([])) == []
    ensures Closing(items, i) == Closing(items, i + 1)
    ensures Pending(items, i, cur) == if cur.Some? && cur.value != [] then [cur.value[|cur.value| - 1]] else []
  {
    assert [] + Closing(items, i + 1) == Closing(items, i + 1);
  }

  lemma UseStands(items: seq<Item>, i: nat, cur: Option<seq<Usage>>)
    requires i < |items| && items[i].Use? && Standing(items, i, cur)
    ensures var next := if cur.Some? then Some(cur.value + [items[i].usage]) else None;
      && Standing(items, i + 1, next) && Pending(items, i, cur) == []
      && Closing(items, i) == Pending(items, i + 1, next) + Closing(items, i + 1)
  {
    var next := if cur.Some? then Some(cur.value + [items[i].usage]) else None;
    assert Standing(items, i + 1, next);
    assert Closes(items, i) <==> next.Some? && (i + 1 < |items| ==> items[i + 1].Text?);
  }

  lemma WalkStep(items: seq<Item>, i: nat, cur: Option<seq<Usage>>)
    requires i < |items|
    ensures StatsWalk(items[i..], cur)
         == if items[i].Text? then (if cur.Some? then Flush(cur.value) else []) + StatsWalk(items[i + 1..], Some([]))
            else StatsWalk(items[i + 1..], if cur.Some? then Some(cur.value + [items[i].usage]) else None)
  {
    assert items[i..][0] == items[i] && items[i..][1..] == items[i + 1..];
  }

  lemma WalkEnd(items: seq<Item>, cur: Option<seq<Usage>>)
    ensures Lasts(StatsWalk(items[|items|..], cur)) == Pending(items, |items|, cur) + Closing(items, |items|)
  {
    assert items[|items|..] == [];
    LastsOfFlush(cur);
  }

  lemma {:induction false} WalkClosesAt(items: seq<Item>, i: nat, cur: Option<seq<Usage>>)
    requires i <= |items| && Standing(items, i, cur)
    ensures Lasts(StatsWalk(items[i..], cur)) == Pending(items, i, cur) + Closing(items, i)
    decreases |items| - i
  {
    hide *;
    if i == |items| {
      WalkEnd(items, cur);
    } else if items[i].Text? {
      WalkStep(items, i, cur);
      TextStands(items, i, cur);
      WalkClosesAt(items, i + 1, Some([]));
      LastsConcat(if cur.Some? then Flush(cur.value) else [], StatsWalk(items[i + 1..], Some([])));
      LastsOfFlush(cur);
      assert [] + Closing(items, i + 1) == Closing(items, i + 1);
    } else {
      WalkStep(items, i, cur);
      UseStands(items, i, cur);
      WalkClosesAt(items, i + 1, if cur.Some? then Some(cur.value + [items[i].usage]) else None);
      assert [] + Closing(items, i) == Closing(items, i);
    }
  }

  lemma LastsOfFlush(cur: Option<seq<Usage>>)
    ensures Lasts(if cur.Some? then Flush(cur.value) else [])
         == if cur.Some? && cur.value != [] then [cur.value[|cur.value| - 1]] else []
  {
    if cur.Some? && cur.value != [] {
      assert [cur.value][1..] == [];
    }
  }

  lemma {:induction false} LastsConcat(a: seq<seq<Usage>>, b: seq<seq<Usage>>)
    ensures Lasts(a + b) == Lasts(a) + Lasts(b)
  {
    if a == [] {
      assert a + b == b;
    } else {
      assert (a + b)[1..] == a[1..] + b;
      LastsConcat(a[1..], b);
    }
  }

  /** The Inspector selects, in line order, exactly the non-zero usages that stand after some
      text and right before another text or at the end. */
  lemma StatsSelectsExactly(texts: seq<Item>, uses: seq<Item>)
    ensures StatsSelection(texts, uses) == NonZero(Closing(Sort(texts + uses), 0))
  {
    var items := Sort(texts + uses);
    WalkClosesAt(items, 0, None);
    assert items[0..] == items && Pending(items, 0, None) == [] && [] + Closing(items, 0) == Closing(items, 0);
    LastNonZeroIs(StatsWalk(items, None));
  }

  lemma Associate(x: seq<Usage>, y: seq<Usage>, z: seq<Usage>)
    ensures x + (y + z) == (x + y) + z
  {
  }

  lemma {:induction false} LastNonZeroConcat(a: seq<seq<Usage>>, b: seq<seq<Usage>>)
    ensures LastNonZero(a + b) == LastNonZero(a) + LastNonZero(b)
  {
    if a == [] {
      assert a + b == b;
    } else {
      var t := a[0];
      var first := if t != [] && t[|t| - 1].ctx != 0 then [t[|t| - 1]] else [];
      assert (a + b)[1..] == a[1..] + b;
      assert LastNonZero(a) == first + LastNonZero(a[1..]) && LastNonZero(a + b) == first + LastNonZero(a[1..] + b);
      hide LastNonZero;
      LastNonZeroConcat(a[1..], b);
      Associate(first, LastNonZero(a[1..]), LastNonZero(b));
    }
  }

  lemma {:induction false} StampedConcat(a: seq<Usage>, b: seq<Usage>)
    ensures Stamped(a + b) == Stamped(a) + Stamped(b)
  {
    if a == [] {
      assert a + b == b;
    } else {
      var first := if a[0].ts.Some? then [a[0]] else [];
      assert (a + b)[1..] == a[1..] + b;
      assert Stamped(a) == first + Stamped(a[1..]) && Stamped(a + b) == first + Stamped(a[1..] + b);
      hide Stamped;
      StampedConcat(a[1..], b);
      Associate(first, Stamped(a[1..]), Stamped(b));
    }
  }

  lemma SortKeeps(items: seq<Item>)
    ensures |Sort(items)| == |items|
    ensures forall x :: x in Sort(items) <==> x in items
  {
    SortOrders(items);
    assert |multiset(Sort(items))| == |multiset(items)|;
    forall x ensures x in Sort(items) <==> x in items {
      assert x in multiset(Sort(items)) <==> x in multiset(items);
    }
  }

  /** What the Inspector's table selects. */
  function StatsSelection(texts: seq<Item>, uses: seq<Item>): seq<Usage> {
    LastNonZero(StatsWalk(Sort(texts + uses), None))
  }

  /** What the dashboard selects, before its final sort by time. */
  function DashSelection(texts: seq<Item>, uses: seq<Item>): seq<Usage>
    requires forall u | u in uses :: u.Use?
  {
    SortKeeps(uses);
    Stamped(LastNonZero(DashWalk(Sort(texts), Sort(uses), [])))
  }

  /** With at least one user text, the dashboard selects what the Inspector selects,
      less records without a timestamp, preceded only by the last usage (if any)
      before the first text. */
  lemma SegmentersAgree(texts: seq<Item>, uses: seq<Item>)
    requires texts != [] && Texts(texts) && Uses(uses)
    ensures |Sort(texts)| > 0 && Uses(Sort(uses))
    ensures DashSelection(texts, uses)
            == Stamped(LastNonZero(Flush(Before(Sort(texts)[0].line, Sort(uses)))))
               + Stamped(StatsSelection(texts, uses))
  {
    SortKeeps(texts);
    SortKeeps(uses);
    SortConcat(texts, uses);
    var bounds, usages := Sort(texts), Sort(uses);
    WalksAgree(bounds, usages, []);
    var pre := Before(bounds[0].line, usages);
    assert [] + pre == pre;
    LastNonZeroConcat(Flush(pre), StatsWalk(Merge(bounds, usages), None));
    StampedConcat(LastNonZero(Flush(pre)), StatsSelection(texts, uses));
  }

  // ------------------------------------------------------------------
  // The loops
  // ------------------------------------------------------------------

  method DashTurns(bounds: seq<Item>, usages: seq<Item>) returns (turns: seq<seq<Usage>>)
    requires forall u | u in usages :: u.Use?
    ensures turns == DashWalk(bounds, usages, [])
  {
    turns := [];
    var bi := 0;
    var cur: seq<Usage> := [];
    assert bounds[0..] == bounds && usages[0..] == usages;
    assert [] + DashWalk(bounds, usages, []) == DashWalk(bounds, usages, []);
    assert Uses(usages);
    hide Flush, DashWalk, Uses;
    for i := 0 to |usages|
      invariant bi <= |bounds|
      invariant DashWalk(bounds, usages, []) == turns + DashWalk(bounds[bi..], usages[i..], cur)
    {
      var u := usages[i];
      while bi < |bounds| && bounds[bi].line <= u.line
        invariant bi <= |bounds|
        invariant DashWalk(bounds, usages, []) == turns + DashWalk(bounds[bi..], usages[i..], cur)
      {
        DashBound(bounds, usages, bi, i, cur);
        AssociateTurns(turns, Flush(cur), DashWalk(bounds[bi + 1..], usages[i..], []));
        turns := turns + Flush(cur);
        cur := [];
        bi := bi + 1;
      }
      DashUse(bounds, usages, bi, i, cur);
      cur := cur + [u.usage];
    }
    assert usages[|usages|..] == [];
    DashEnd(bounds[bi..], cur);
    turns := turns + Flush(cur);
  }

  lemma AssociateTurns(x: seq<seq<Usage>>, y: seq<seq<Usage>>, z: seq<seq<Usage>>)
    ensures x + (y + z) == (x + y) + z
  {
  }

  lemma DashEnd(bounds: seq<Item>, cur: seq<Usage>)
    ensures DashWalk(bounds, [], cur) == Flush(cur)
  {
  }

  lemma DashBound(bounds: seq<Item>, usages: seq<Item>, bi: nat, i: nat, cur: seq<Usage>)
    requires bi < |bounds| && i < |usages| && Uses(usages) && bounds[bi].line <= usages[i].line
    ensures DashWalk(bounds[bi..], usages[i..], cur) == Flush(cur) + DashWalk(bounds[bi + 1..], usages[i..], [])
  {
    assert bounds[bi..][1..] == bounds[bi + 1..];
  }

  lemma DashUse(bounds: seq<Item>, usages: seq<Item>, bi: nat, i: nat, cur: seq<Usage>)
    requires bi <= |bounds| && i < |usages| && Uses(usages)
    requires bi < |bounds| ==> usages[i].line < bounds[bi].line
    ensures DashWalk(bounds[bi..], usages[i..], cur) == DashWalk(bounds[bi..], usages[i + 1..], cur + [usages[i].usage])
  {
    assert usages[i..][1..] == usages[i + 1..];
  }

  method StatsTurns(items: seq<Item>) returns (turns: seq<seq<Usage>>)
    ensures turns == StatsWalk(items, None)
  {
    turns := [];
    var cur: Option<seq<Usage>> := None;
    assert items[0..] == items;
    for i := 0 to |items|
      invariant StatsWalk(items, None) == turns + StatsWalk(items[i..], cur)
    {
      var item := items[i];
      assert items[i..][1..] == items[i + 1..];
      if item.Text? {
        if cur.Some? && cur.value != [] {
          turns := turns + [cur.value];
        }
        cur := Some([]);
      } else if cur.Some? {
        cur := Some(cur.value + [item.usage]);
      }
    }
    assert items[|items|..] == [];
    if cur.Some? && cur.value != [] {
      turns := turns + [cur.value];
    }
  }

  datatype Row = Row(turnNum: int, line: int, ctx: int, delta: Option<int>)

  /** One row per selected usage, numbered 1..n, each delta the difference from the row before. */
  function RowsOf(us: seq<Usage>): seq<Row> {
    seq(|us|, r requires 0 <= r < |us| =>
      Row(r + 1, us[r].line, us[r].ctx, if r == 0 then None else Some(us[r].ctx - us[r - 1].ctx)))
  }

  /** Row by row: its usage's line and context, its number, and the growth since the row before. */
  ghost predicate RowsShow(rows: seq<Row>, us: seq<Usage>) {
    && |rows| == |us|
    && (forall r | 0 <= r < |rows| ::
          rows[r].turnNum == r + 1 && rows[r].line == us[r].line && rows[r].ctx == us[r].ctx)
    && (forall r | 0 <= r < |rows| :: rows[r].delta.None? <==> r == 0)
    && (forall r | 0 < r < |rows| && rows[r].delta.Some? :: rows[r - 1].ctx + rows[r].delta.value == rows[r].ctx)
  }

  lemma RowsOfShow(us: seq<Usage>)
    ensures RowsShow(RowsOf(us), us)
  {
  }

  function LastCtx(us: seq<Usage>): Option<int> {
    if us == [] then None else Some(us[|us| - 1].ctx)
  }

  function RowAfter(us: seq<Usage>, u: Usage): Row {
    Row(|us| + 1, u.line, u.ctx, if LastCtx(us).Some? then Some(u.ctx - LastCtx(us).value) else None)
  }

  lemma RowsOfAppend(us: seq<Usage>, u: Usage)
    ensures RowsOf(us + [u]) == RowsOf(us) + [RowAfter(us, u)]
    ensures LastCtx(us + [u]) == Some(u.ctx)
  {
  }

  /** The row for the next selected usage, from the loop's own variables. */
  lemma RowAfterIs(us: seq<Usage>, u: Usage, rows: seq<Row>, prev: Option<int>)
    requires rows == RowsOf(us) && prev == LastCtx(us)
    ensures RowAfter(us, u)
         == Row(|rows| + 1, u.line, u.ctx, if prev.Some? then Some(u.ctx - prev.value) else None)
  {
  }

  lemma NoRows(turns: seq<seq<Usage>>)
    ensures LastNonZero(turns) == [] + LastNonZero(turns[0..]) && RowsOf([]) == [] && LastCtx([]) == None
  {
    assert turns[0..] == turns;
  }

  lemma AllPicked(turns: seq<seq<Usage>>, picked: seq<Usage>)
    requires LastNonZero(turns) == picked + LastNonZero(turns[|turns|..])
    ensures LastNonZero(turns) == picked
  {
    assert turns[|turns|..] == [] && picked + [] == picked;
  }

  lemma PickStep(turns: seq<seq<Usage>>, i: nat, picked: seq<Usage>)
    requires i < |turns| && LastNonZero(turns) == picked + LastNonZero(turns[i..])
    ensures var t := turns[i];
            LastNonZero(turns)
            == (if t != [] && t[|t| - 1].ctx != 0 then picked + [t[|t| - 1]] else picked) + LastNonZero(turns[i + 1..])
  {
    LastNonZeroAt(turns, i);
    hide *;
    var t, rest := turns[i], LastNonZero(turns[i + 1..]);
    if t != [] && t[|t| - 1].ctx != 0 {
      Regroup(picked, t[|t| - 1], rest);
    }
  }

  method StatsRows(turns: seq<seq<Usage>>) returns (rows: seq<Row>)
    ensures rows == RowsOf(LastNonZero(turns))
    ensures RowsShow(rows, LastNonZero(turns))
  {
    hide *;
    rows := [];
    var prev: Option<int> := None;
    ghost var picked: seq<Usage> := [];
    NoRows(turns);
    for i := 0 to |turns|
      invariant LastNonZero(turns) == picked + LastNonZero(turns[i..])
      invariant rows == RowsOf(picked) && prev == LastCtx(picked)
    {
      var t := turns[i];
      PickStep(turns, i, picked);
      if t != [] && t[|t| - 1].ctx != 0 {
        var u := t[|t| - 1];
        RowAfterIs(picked, u, rows, prev);
        RowsOfAppend(picked, u);
        rows := rows + [Row(|rows| + 1, u.line, u.ctx, if prev.Some? then Some(u.ctx - prev.value) else None)];
        picked := picked + [u];
        prev := Some(u.ctx);
      }
    }
    AllPicked(turns, picked);
    RowsOfShow(picked);
  }

  lemma Regroup(a: seq<Usage>, u: Usage, b: seq<Usage>)
    ensures a + ([u] + b) == a + [u] + b
  {
  }

  lemma LastNonZeroAt(turns: seq<seq<Usage>>, i: nat)
    requires i < |turns|
    ensures LastNonZero(turns[i..]) ==
            if turns[i] != [] && turns[i][|turns[i]| - 1].ctx != 0
            then [turns[i][|turns[i]| - 1]] + LastNonZero(turns[i + 1..])
            else LastNonZero(turns[i + 1..])
  {
    assert turns[i..][1..] == turns[i + 1..];
  }
}
