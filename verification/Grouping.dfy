/** Grouped aggregation: what GROUP BY with SUM, COUNT, MIN and MAX means over a
    relation, computed by upserting rows in any order, and why aggregating the
    groups again is aggregating their rows. */
module Grouping {

  /** Five summed columns. */
  datatype Amounts = Amounts(n: int, a: int, b: int, c: int, d: int)

  const ZERO: Amounts := Amounts(0, 0, 0, 0, 0)

  function Plus(x: Amounts, y: Amounts): Amounts {
    Amounts(x.n + y.n, x.a + y.a, x.b + y.b, x.c + y.c, x.d + y.d)
  }

  /** One row of a relation, or one group of it: raw rows have first == last. */
  datatype Entry<L> = Entry(group: L, first: int, last: int, amounts: Amounts)

  // ------------------------------------------------------------------
  // Aggregates of a set of rows
  // ------------------------------------------------------------------

  ghost function Total<K, L>(rows: map<K, Entry<L>>): Amounts
    decreases |rows.Keys|
  {
    if rows.Keys == {} then ZERO
    else
      var k :| k in rows.Keys;
      Shorter(rows, k);
      Plus(rows[k].amounts, Total(rows - {k}))
  }

  lemma Shorter<K, L>(rows: map<K, Entry<L>>, k: K)
    requires k in rows
    ensures (rows - {k}).Keys == rows.Keys - {k}
    ensures |(rows - {k}).Keys| < |rows.Keys|
  {
  }

  /** The earliest first and the latest last among the rows. */
  ghost predicate IsSpan<K, L>(rows: map<K, Entry<L>>, first: int, last: int) {
    && (exists k | k in rows :: rows[k].first == first)
    && (exists k | k in rows :: rows[k].last == last)
    && (forall k | k in rows :: first <= rows[k].first && rows[k].last <= last)
  }

  lemma {:induction false} SpanExists<K, L>(rows: map<K, Entry<L>>) returns (first: int, last: int)
    requires rows.Keys != {}
    ensures IsSpan(rows, first, last)
    decreases |rows.Keys|
  {
    var k :| k in rows;
    Shorter(rows, k);
    var rest := rows - {k};
    if rest.Keys == {} {
      assert rows.Keys == rest.Keys + {k};
      first, last := rows[k].first, rows[k].last;
    } else {
      first, last := SpanExists(rest);
      var i :| i in rest && rest[i].first == first;
      var j :| j in rest && rest[j].last == last;
      assert i in rows && j in rows && rows[i].first == first && rows[j].last == last;
      assert forall x | x in rows :: x == k || x in rest;
      first := if rows[k].first < first then rows[k].first else first;
      last := if last < rows[k].last then rows[k].last else last;
    }
  }

  lemma SpanUnique<K, L>(rows: map<K, Entry<L>>, f1: int, l1: int, f2: int, l2: int)
    requires IsSpan(rows, f1, l1) && IsSpan(rows, f2, l2)
    ensures f1 == f2 && l1 == l2
  {
  }

  ghost function Merged<K, L>(rows: map<K, Entry<L>>, name: L): Entry<L>
    requires rows.Keys != {}
  {
    Entry(name, Span(rows).0, Span(rows).1, Total(rows))
  }

  ghost function Span<K, L>(rows: map<K, Entry<L>>): (span: (int, int))
    requires rows.Keys != {}
    ensures IsSpan(rows, span.0, span.1)
  {
    assert exists first, last :: IsSpan(rows, first, last) by {
      var first, last := SpanExists(rows);
    }
    var first, last :| IsSpan(rows, first, last);
    (first, last)
  }

  // ------------------------------------------------------------------
  // Summing in any order
  // ------------------------------------------------------------------

  lemma {:induction false} TotalTake<K, L>(rows: map<K, Entry<L>>, k: K)
    requires k in rows
    ensures Total(rows) == Plus(rows[k].amounts, Total(rows - {k}))
    decreases |rows.Keys|
  {
    var j :| j in rows.Keys && Total(rows) == Plus(rows[j].amounts, Total(rows - {j}));
    if j != k {
      hide *;
      Shorter(rows, j);
      Shorter(rows, k);
      MinusTwice(rows, j, k);
      TotalTake(rows - {j}, k);
      TotalTake(rows - {k}, j);
      PlusSwap(rows[j].amounts, rows[k].amounts, Total((rows - {j}) - {k}));
    }
  }

  lemma MinusTwice<K, L>(rows: map<K, Entry<L>>, j: K, k: K)
    requires j in rows && k in rows && j != k
    ensures k in rows - {j} && (rows - {j})[k] == rows[k]
    ensures j in rows - {k} && (rows - {k})[j] == rows[j]
    ensures (rows - {j}) - {k} == (rows - {k}) - {j}
  {
  }

  lemma PlusSwap(x: Amounts, y: Amounts, z: Amounts)
    ensures Plus(x, Plus(y, z)) == Plus(y, Plus(x, z))
  {
  }

  lemma TotalNone<K, L>(rows: map<K, Entry<L>>)
    requires rows.Keys == {}
    ensures Total(rows) == ZERO
  {
  }

  lemma PlusZero(x: Amounts)
    ensures Plus(x, ZERO) == x
  {
  }

  lemma JoinMinus<K, L>(x: map<K, Entry<L>>, y: map<K, Entry<L>>, k: K)
    requires x.Keys !! y.Keys && k in y
    ensures k in x + y && (x + y)[k] == y[k] && (x + y) - {k} == x + (y - {k})
    ensures x.Keys !! (y - {k}).Keys
  {
  }

  lemma {:induction false} TotalJoin<K, L>(x: map<K, Entry<L>>, y: map<K, Entry<L>>)
    requires x.Keys !! y.Keys
    ensures Total(x + y) == Plus(Total(x), Total(y))
    decreases |y.Keys|
  {
    hide *;
    if y.Keys == {} {
      assert x + y == x;
      TotalNone(y);
      PlusZero(Total(x));
    } else {
      var k :| k in y;
      Shorter(y, k);
      JoinMinus(x, y, k);
      TotalJoin(x, y - {k});
      TotalTake(y, k);
      TotalTake(x + y, k);
      PlusSwap(y[k].amounts, Total(x), Total(y - {k}));
    }
  }

  lemma TotalAdd<K, L>(rows: map<K, Entry<L>>, k: K, e: Entry<L>)
    requires k !in rows
    ensures Total(rows[k := e]) == Plus(e.amounts, Total(rows))
  {
    TotalTake(rows[k := e], k);
    assert rows[k := e] - {k} == rows;
  }

  // ------------------------------------------------------------------
  // GROUP BY
  // ------------------------------------------------------------------

  function Labels<K, L>(rows: map<K, Entry<L>>): set<L> {
    set k | k in rows :: rows[k].group
  }

  /** The rows whose label is one of these. */
  function Part<K, L>(rows: map<K, Entry<L>>, labels: set<L>): map<K, Entry<L>> {
    map k | k in rows && rows[k].group in labels :: rows[k]
  }

  ghost function GroupBy<K, L>(rows: map<K, Entry<L>>): map<L, Entry<L>> {
    map l | l in Labels(rows) :: GroupOf(rows, l)
  }

  ghost function GroupOf<K, L>(rows: map<K, Entry<L>>, l: L): Entry<L>
    requires l in Labels(rows)
  {
    PartNonEmpty(rows, l);
    Merged(Part(rows, {l}), l)
  }

  lemma PartNonEmpty<K, L>(rows: map<K, Entry<L>>, l: L)
    requires l in Labels(rows)
    ensures Part(rows, {l}).Keys != {}
  {
    var k :| k in rows && rows[k].group == l;
    assert k in Part(rows, {l});
  }

  function Min(x: int, y: int): int {
    if x <= y then x else y
  }

  function Max(x: int, y: int): int {
    if x <= y then y else x
  }

  /** One upsert: widen the span, add the amounts. */
  function Absorb<L>(group: Entry<L>, e: Entry<L>): Entry<L> {
    Entry(group.group, Min(group.first, e.first), Max(group.last, e.last), Plus(group.amounts, e.amounts))
  }

  lemma LoneGroup<K, L>(k: K, e: Entry<L>)
    ensures map[k := e].Keys != {} && Merged(map[k := e], e.group) == e
  {
    assert k in map[k := e];
    var rows := map[k := e];
    TotalAdd(map[], k, e);
    assert map[][k := e] == rows;
    assert IsSpan(rows, e.first, e.last);
    SpanUnique(rows, e.first, e.last, Span(rows).0, Span(rows).1);
  }

  lemma GroupGrows<K, L>(rows: map<K, Entry<L>>, k: K, e: Entry<L>, l: L)
    requires k !in rows && rows.Keys != {}
    ensures Merged(rows[k := e], l) == Absorb(Merged(rows, l), e)
  {
    TotalAdd(rows, k, e);
    var span := Span(rows);
    var more := rows[k := e];
    var first, last := Min(span.0, e.first), Max(span.1, e.last);
    var i :| i in rows && rows[i].first == span.0;
    var j :| j in rows && rows[j].last == span.1;
    assert more[i].first == span.0 && more[j].last == span.1 && more[k] == e;
    assert IsSpan(more, first, last);
    SpanUnique(more, first, last, Span(more).0, Span(more).1);
  }

  lemma PartGrows<K, L>(rows: map<K, Entry<L>>, k: K, e: Entry<L>, l: L)
    requires k !in rows
    ensures Part(rows[k := e], {l}) == if l == e.group then Part(rows, {l})[k := e] else Part(rows, {l})
  {
  }

  lemma NoPart<K, L>(rows: map<K, Entry<L>>, l: L)
    requires l !in Labels(rows)
    ensures Part(rows, {l}) == map[]
  {
  }

  /** What one more row does to the group it falls in. */
  lemma OwnGroupGrows<K, L>(rows: map<K, Entry<L>>, k: K, e: Entry<L>)
    requires k !in rows
    ensures e.group in Labels(rows[k := e])
    ensures GroupOf(rows[k := e], e.group)
         == if e.group in Labels(rows) then Absorb(GroupOf(rows, e.group), e) else e
  {
    var l := e.group;
    LabelsGrow(rows, k, e);
    PartGrows(rows, k, e, l);
    if l in Labels(rows) {
      PartNonEmpty(rows, l);
      hide Part, Labels, Merged, Absorb;
      GroupGrows(Part(rows, {l}), k, e, l);
    } else {
      NoPart(rows, l);
      assert map[][k := e] == map[k := e];
      LoneGroup(k, e);
    }
  }

  lemma GroupByGrows<K, L>(rows: map<K, Entry<L>>, k: K, e: Entry<L>)
    requires k !in rows
    ensures GroupBy(rows[k := e]) == if e.group in Labels(rows)
      then GroupBy(rows)[e.group := Absorb(GroupBy(rows)[e.group], e)]
      else GroupBy(rows)[e.group := e]
  {
    hide Part, Labels, Merged, Absorb;
    LabelsGrow(rows, k, e);
    OwnGroupGrows(rows, k, e);
    forall l | l in Labels(rows) && l != e.group
      ensures GroupOf(rows[k := e], l) == GroupOf(rows, l)
    {
      PartGrows(rows, k, e, l);
    }
  }

  lemma GroupByKeys<K, L>(rows: map<K, Entry<L>>)
    ensures GroupBy(rows).Keys == Labels(rows)
  {
  }

  lemma LabelsGrow<K, L>(rows: map<K, Entry<L>>, k: K, e: Entry<L>)
    requires k !in rows
    ensures Labels(rows[k := e]) == Labels(rows) + {e.group}
  {
    var more := rows[k := e];
    forall l | l in Labels(rows) + {e.group}
      ensures l in Labels(more)
    {
      if l in Labels(rows) {
        var i :| i in rows && rows[i].group == l;
        assert more[i].group == l;
      } else {
        assert more[k].group == l;
      }
    }
  }

  function Without<K, L>(rows: map<K, Entry<L>>, rest: set<K>): map<K, Entry<L>> {
    map k | k in rows && k !in rest :: rows[k]
  }

  lemma WithoutGrows<K, L>(rows: map<K, Entry<L>>, rest: set<K>, k: K)
    requires k in rest && k in rows
    ensures Without(rows, rest - {k}) == Without(rows, rest)[k := rows[k]]
  {
  }

  lemma EmptyGroupBy<K, L>(rows: map<K, Entry<L>>)
    requires rows == map[]
    ensures GroupBy(rows) == map[]
  {
  }

  /** Upserting the rows one at a time, in any order, builds the grouped table. */
  method Group<K(==), L(==)>(rows: map<K, Entry<L>>) returns (table: map<L, Entry<L>>)
    ensures table == GroupBy(rows)
  {
    table := map[];
    var rest := rows.Keys;
    ghost var done: map<K, Entry<L>> := map[];
    hide GroupBy, Absorb;
    EmptyGroupBy(done);
    while rest != {}
      invariant rest <= rows.Keys
      invariant done == Without(rows, rest)
      invariant table == GroupBy(done)
      decreases |rest|
    {
      var k :| k in rest;
      var e := rows[k];
      GroupByGrows(done, k, e);
      GroupByKeys(done);
      table := if e.group in table then table[e.group := Absorb(table[e.group], e)] else table[e.group := e];
      WithoutGrows(rows, rest, k);
      done := done[k := e];
      rest := rest - {k};
    }
    assert done == rows;
  }

  // ------------------------------------------------------------------
  // Aggregating groups is aggregating rows
  // ------------------------------------------------------------------

  /** The groups with these labels. */
  ghost function Cells<K, L>(rows: map<K, Entry<L>>, labels: set<L>): map<L, Entry<L>>
    requires labels <= Labels(rows)
  {
    map l | l in labels :: GroupOf(rows, l)
  }

  lemma CellsSplit<K, L>(rows: map<K, Entry<L>>, labels: set<L>, l: L)
    requires labels <= Labels(rows) && l in labels
    ensures l !in Cells(rows, labels - {l})
    ensures Cells(rows, labels) == Cells(rows, labels - {l})[l := GroupOf(rows, l)]
    ensures GroupOf(rows, l).amounts == Total(Part(rows, {l}))
  {
    hide Labels, Total, Part, Span;
  }

  lemma PartSplit<K, L>(rows: map<K, Entry<L>>, labels: set<L>, l: L)
    requires l in labels
    ensures Part(rows, {l}).Keys !! Part(rows, labels - {l}).Keys
    ensures Part(rows, labels) == Part(rows, {l}) + Part(rows, labels - {l})
  {
  }

  /** Summing the groups of any set of labels is summing the rows under them. */
  lemma {:induction false} RegroupTotal<K, L>(rows: map<K, Entry<L>>, labels: set<L>)
    requires labels <= Labels(rows)
    ensures Total(Cells(rows, labels)) == Total(Part(rows, labels))
    decreases |labels|
  {
    if labels == {} {
      TotalNone(Part(rows, labels));
      TotalNone(Cells(rows, labels));
    } else {
      var l :| l in labels;
      var others := labels - {l};
      RegroupTotal(rows, others);
      CellsSplit(rows, labels, l);
      PartSplit(rows, labels, l);
      hide *;
      TotalAdd(Cells(rows, others), l, GroupOf(rows, l));
      TotalJoin(Part(rows, {l}), Part(rows, others));
    }
  }

  /** The earliest and latest times over the groups are those over the rows. */
  lemma RegroupSpan<K, L>(rows: map<K, Entry<L>>, labels: set<L>, first: int, last: int)
    requires labels <= Labels(rows)
    ensures IsSpan(Cells(rows, labels), first, last) <==> IsSpan(Part(rows, labels), first, last)
  {
    if labels == {} {
    } else {
      var l :| l in labels;
      PartNonEmpty(rows, l);
      var k :| k in Part(rows, {l});
      assert k in Part(rows, labels);
      var span := Span(Part(rows, labels));
      CellsSpan(rows, labels, span.0, span.1);
      if IsSpan(Cells(rows, labels), first, last) {
        SpanUnique(Cells(rows, labels), first, last, span.0, span.1);
      }
      if IsSpan(Part(rows, labels), first, last) {
        SpanUnique(Part(rows, labels), first, last, span.0, span.1);
      }
    }
  }

  lemma CellsSpan<K, L>(rows: map<K, Entry<L>>, labels: set<L>, first: int, last: int)
    requires labels <= Labels(rows) && IsSpan(Part(rows, labels), first, last)
    ensures IsSpan(Cells(rows, labels), first, last)
  {
    var cells, part := Cells(rows, labels), Part(rows, labels);
    forall l | l in cells
      ensures first <= cells[l].first && cells[l].last <= last
    {
      CellWithin(rows, labels, l, first, last);
    }
    var i :| i in part && part[i].first == first;
    var j :| j in part && part[j].last == last;
    CellReaches(rows, labels, i);
    CellReaches(rows, labels, j);
    assert cells[part[i].group].first == first;
    assert cells[part[j].group].last == last;
  }

  lemma CellWithin<K, L>(rows: map<K, Entry<L>>, labels: set<L>, l: L, first: int, last: int)
    requires labels <= Labels(rows) && l in labels && IsSpan(Part(rows, labels), first, last)
    ensures first <= GroupOf(rows, l).first && GroupOf(rows, l).last <= last
  {
    PartNonEmpty(rows, l);
    var group, part := Part(rows, {l}), Part(rows, labels);
    var span := Span(group);
    var i :| i in group && group[i].first == span.0;
    var j :| j in group && group[j].last == span.1;
    assert i in part && j in part;
  }

  lemma CellReaches<K, L>(rows: map<K, Entry<L>>, labels: set<L>, k: K)
    requires labels <= Labels(rows) && k in Part(rows, labels)
    ensures GroupOf(rows, rows[k].group).first <= rows[k].first
    ensures rows[k].last <= GroupOf(rows, rows[k].group).last
  {
    var l := rows[k].group;
    PartNonEmpty(rows, l);
    assert k in Part(rows, {l});
  }
}
