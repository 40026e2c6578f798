/** Keyset pagination of the session list (backend/api_sessions.py, `_cursor_args`
    and `list_sessions`).  A query is a relation, because rows that tie in the
    ORDER BY may come back in any order. */
module Sessions {
  import opened Wrappers

  /** One aggregated session; `at` is first_event_at, None when SQL gives NULL. */
  datatype Session = Session(id: string, at: Option<int>)

  /** `a` strictly precedes `b` under ORDER BY first_event_at DESC NULLS LAST. */
  predicate Sooner(a: Option<int>, b: Option<int>) {
    a.Some? && (b.None? || b.value < a.value)
  }

  /** The cursor's WHERE clause, which is never true of a NULL time. */
  predicate Past(s: Session, cursor: Option<int>) {
    cursor.None? || (s.at.Some? && s.at.value < cursor.value)
  }

  /** One response, together with the limit + 1 rows it was cut from. */
  datatype Page = Page(limit: nat, fetched: seq<Session>) {
    function Items(): seq<Session> {
      if |fetched| > limit then fetched[..limit] else fetched
    }

    function Next(): Option<int> {
      if |fetched| > limit && limit > 0 then Items()[limit - 1].at else None
    }
  }

  ghost predicate Distinct(ss: seq<Session>) {
    forall i, j | 0 <= i < j < |ss| :: ss[i] != ss[j]
  }

  ghost predicate Descending(ss: seq<Session>) {
    forall i, j | 0 <= i < j < |ss| :: !Sooner(ss[j].at, ss[i].at)
  }

  /** `page.fetched` is what the query may return for this cursor and limit. */
  ghost predicate Answers(rows: set<Session>, cursor: Option<int>, page: Page) {
    && 0 < page.limit
    && |page.fetched| <= page.limit + 1
    && Distinct(page.fetched)
    && Descending(page.fetched)
    && (forall s | s in page.fetched :: s in rows && Past(s, cursor))
    && (forall s | s in rows && Past(s, cursor) && s !in page.fetched ::
          Beyond(s, page))
  }

  /** A matching row left out: the query was full, and no row returned should have come later. */
  ghost predicate Beyond(s: Session, page: Page) {
    |page.fetched| == page.limit + 1 && forall i | 0 <= i < |page.fetched| :: !Sooner(s.at, page.fetched[i].at)
  }

  /** Responses a client gets by passing on each next_cursor, over unchanged rows.
      Every request may choose its own limit. */
  ghost predicate Chain(rows: set<Session>, cursor: Option<int>, pages: seq<Page>)
    decreases pages
  {
    pages != [] ==>
      && Answers(rows, cursor, pages[0])
      && (|pages| > 1 ==> pages[0].Next().Some?)
      && Chain(rows, pages[0].Next(), pages[1..])
  }

  /** The client has followed next_cursor to the end. */
  ghost predicate Complete(rows: set<Session>, pages: seq<Page>) {
    Chain(rows, None, pages) && pages != [] && pages[|pages| - 1].Next().None?
  }

  function Listed(pages: seq<Page>): seq<Session> {
    if pages == [] then [] else pages[0].Items() + Listed(pages[1..])
  }

  // ------------------------------------------------------------------
  // One page
  // ------------------------------------------------------------------

  /** A page that hands on a cursor holds only rows at or above it, all rows
      strictly above it, and the cursor goes down. */
  lemma PageAboveCursor(rows: set<Session>, cursor: Option<int>, page: Page)
    requires Answers(rows, cursor, page) && page.Next().Some?
    ensures page.Items() != []
    ensures cursor.Some? ==> page.Next().value < cursor.value
    ensures forall s | s in page.Items() :: s.at.Some? && page.Next().value <= s.at.value
    ensures forall s | s in rows && Past(s, cursor) && s.at.Some? && page.Next().value < s.at.value :: s in page.Items()
  {
    var last := page.Items()[page.limit - 1];
    assert last == page.fetched[page.limit - 1] && last in page.fetched;
    forall s | s in page.Items()
      ensures s.at.Some? && page.Next().value <= s.at.value
    {
      var i :| 0 <= i < page.limit && page.fetched[i] == s;
      assert i < page.limit - 1 ==> !Sooner(last.at, page.fetched[i].at);
    }
    forall s | s in rows && Past(s, cursor) && s.at.Some? && page.Next().value < s.at.value
      ensures s in page.Items()
    {
      Reached(rows, cursor, page, s);
    }
  }

  /** A matching row sooner than the last item is an item. */
  lemma Reached(rows: set<Session>, cursor: Option<int>, page: Page, s: Session)
    requires Answers(rows, cursor, page) && |page.fetched| > page.limit
    requires s in rows && Past(s, cursor) && Sooner(s.at, page.fetched[page.limit - 1].at)
    ensures s in page.Items()
  {
    assert s in page.fetched || Beyond(s, page);
    var i :| 0 <= i < |page.fetched| && page.fetched[i] == s;
    assert i < page.limit;
    assert page.Items()[i] == s;
  }

  /** A page without a next cursor holds every dated row still to come. */
  lemma LastPageHoldsDated(rows: set<Session>, cursor: Option<int>, page: Page)
    requires Answers(rows, cursor, page) && page.Next().None?
    ensures forall s | s in rows && Past(s, cursor) && s.at.Some? :: s in page.Items()
  {
    forall s | s in rows && Past(s, cursor) && s.at.Some?
      ensures s in page.Items()
    {
      assert s in page.fetched || Beyond(s, page);
      if |page.fetched| > page.limit {
        assert page.fetched[page.limit - 1].at == None;
        Reached(rows, cursor, page, s);
      }
    }
  }

  // ------------------------------------------------------------------
  // A whole traversal
  // ------------------------------------------------------------------

  lemma {:induction false} ListedArePast(rows: set<Session>, cursor: Option<int>, pages: seq<Page>)
    requires Chain(rows, cursor, pages)
    ensures forall s | s in Listed(pages) :: s in rows && Past(s, cursor)
    decreases pages
  {
    if pages != [] {
      forall s | s in pages[0].Items()
        ensures s in rows && Past(s, cursor)
      {
        assert s in pages[0].fetched;
      }
      if |pages| > 1 {
        ListedArePast(rows, pages[0].Next(), pages[1..]);
        PageAboveCursor(rows, cursor, pages[0]);
      }
    }
  }

  lemma ItemsOrdered(rows: set<Session>, cursor: Option<int>, page: Page)
    requires Answers(rows, cursor, page)
    ensures Distinct(page.Items()) && Descending(page.Items())
  {
  }

  /** Nothing repeats and the order is descending, whatever the ties. */
  lemma {:induction false} ListedOnceDescending(rows: set<Session>, cursor: Option<int>, pages: seq<Page>)
    requires Chain(rows, cursor, pages)
    ensures Distinct(Listed(pages)) && Descending(Listed(pages))
    decreases pages
  {
    if pages != [] {
      hide Answers, Distinct, Descending, Sooner, Past;
      ItemsOrdered(rows, cursor, pages[0]);
      ListedOnceDescending(rows, pages[0].Next(), pages[1..]);
      if |pages| > 1 {
        PageAboveCursor(rows, cursor, pages[0]);
        ListedArePast(rows, pages[0].Next(), pages[1..]);
        DatedBelow(rows, pages[0].Next(), Listed(pages[1..]));
        JoinOrdered(pages[0].Items(), Listed(pages[1..]), pages[0].Next().value);
      } else {
        assert pages[1..] == [];
        assert Listed(pages) == pages[0].Items() + [];
        assert pages[0].Items() + [] == pages[0].Items();
      }
    }
  }

  lemma DatedBelow(rows: set<Session>, cursor: Option<int>, ss: seq<Session>)
    requires cursor.Some? && forall s | s in ss :: s in rows && Past(s, cursor)
    ensures forall s | s in ss :: s.at.Some? && s.at.value < cursor.value
  {
  }

  lemma JoinOrdered(a: seq<Session>, b: seq<Session>, t: int)
    requires Distinct(a) && Descending(a) && Distinct(b) && Descending(b)
    requires forall s | s in a :: s.at.Some? && t <= s.at.value
    requires forall s | s in b :: s.at.Some? && s.at.value < t
    ensures Distinct(a + b) && Descending(a + b)
  {
    forall i, j | 0 <= i < j < |a + b|
      ensures (a + b)[i] != (a + b)[j] && !Sooner((a + b)[j].at, (a + b)[i].at)
    {
      assert i < |a| ==> (a + b)[i] in a;
      assert |a| <= j ==> (a + b)[j] in b;
    }
  }

  /** Following cursors terminates: no chain has more pages than rows, plus one. */
  lemma {:induction false} ChainIsBounded(rows: set<Session>, cursor: Option<int>, pages: seq<Page>)
    requires Chain(rows, cursor, pages)
    ensures |pages| <= |rows| + 1
  {
    ListedOnceDescending(rows, cursor, pages);
    ListedArePast(rows, cursor, pages);
    PagesAtMostListed(rows, cursor, pages);
    DistinctFits(Listed(pages), rows);
  }

  lemma {:induction false} PagesAtMostListed(rows: set<Session>, cursor: Option<int>, pages: seq<Page>)
    requires Chain(rows, cursor, pages)
    ensures |pages| <= |Listed(pages)| + 1
    decreases pages
  {
    if |pages| > 1 {
      PageAboveCursor(rows, cursor, pages[0]);
      PagesAtMostListed(rows, pages[0].Next(), pages[1..]);
    }
  }

  lemma {:induction false} DistinctFits(ss: seq<Session>, rows: set<Session>)
    requires Distinct(ss) && forall s | s in ss :: s in rows
    ensures |ss| <= |rows|
  {
    if ss != [] {
      assert forall s | s in ss[1..] :: s in rows - {ss[0]};
      DistinctFits(ss[1..], rows - {ss[0]});
    }
  }

  /** `s` ties with the page's cursor but did not fit on the page. */
  predicate Drops(page: Page, s: Session) {
    page.Next().Some? && page.Next() == s.at && s !in page.Items()
  }

  lemma {:induction false} DatedMissedExactly(rows: set<Session>, cursor: Option<int>, pages: seq<Page>, s: Session)
    requires Chain(rows, cursor, pages) && pages != [] && pages[|pages| - 1].Next().None?
    requires s in rows && Past(s, cursor) && s.at.Some?
    ensures s !in Listed(pages) <==> exists i | 0 <= i < |pages| :: Drops(pages[i], s)
    decreases pages
  {
    if pages[0].Next().None? {
      LastPageHoldsDated(rows, cursor, pages[0]);
      assert |pages| == 1;
    } else {
      PageAboveCursor(rows, cursor, pages[0]);
      var rest := pages[1..];
      ListedArePast(rows, pages[0].Next(), rest);
      if Past(s, pages[0].Next()) {
        DatedMissedExactly(rows, pages[0].Next(), rest, s);
        Shift(pages, s);
      } else {
        LaterDropsArePast(rows, pages[0].Next(), rest, s);
        Shift(pages, s);
      }
    }
  }

  lemma Shift(pages: seq<Page>, s: Session)
    requires pages != []
    ensures (exists i | 0 <= i < |pages| :: Drops(pages[i], s))
       <==> Drops(pages[0], s) || exists i | 0 <= i < |pages[1..]| :: Drops(pages[1..][i], s)
  {
    forall i | 0 < i < |pages|
      ensures pages[i] == pages[1..][i - 1]
    {
    }
    if i :| 0 <= i < |pages| && Drops(pages[i], s) {
      if i > 0 {
        assert Drops(pages[1..][i - 1], s);
      }
    }
  }

  lemma {:induction false} LaterDropsArePast(rows: set<Session>, cursor: Option<int>, pages: seq<Page>, s: Session)
    requires Chain(rows, cursor, pages) && cursor.Some? && !Past(s, cursor)
    ensures forall i | 0 <= i < |pages| :: !Drops(pages[i], s)
    decreases pages
  {
    if pages != [] && pages[0].Next().Some? {
      PageAboveCursor(rows, cursor, pages[0]);
      LaterDropsArePast(rows, pages[0].Next(), pages[1..], s);
      forall i | 0 <= i < |pages|
        ensures !Drops(pages[i], s)
      {
        assert i > 0 ==> pages[i] == pages[1..][i - 1];
      }
    }
  }

  /** The sessions a finished traversal misses are exactly: a dated one tied with
      some page's last row and not on that page, and an undated one not on page one. */
  lemma MissedExactly(rows: set<Session>, pages: seq<Page>, s: Session)
    requires Complete(rows, pages) && s in rows
    ensures s !in Listed(pages) <==>
      if s.at.Some? then exists i | 0 <= i < |pages| :: Drops(pages[i], s) else s !in pages[0].Items()
  {
    if s.at.Some? {
      DatedMissedExactly(rows, None, pages, s);
    } else if |pages| > 1 {
      ListedArePast(rows, pages[0].Next(), pages[1..]);
    }
  }

  // ------------------------------------------------------------------
  // When nothing is missed
  // ------------------------------------------------------------------

  ghost predicate Untied(rows: set<Session>) {
    forall a, b | a in rows && b in rows && a.at == b.at :: a == b
  }

  ghost predicate AllDated(rows: set<Session>) {
    forall s | s in rows :: s.at.Some?
  }

  /** Distinct, non-null first-event times: every session exactly once, descending. */
  lemma ListsEverySessionOnce(rows: set<Session>, pages: seq<Page>)
    requires Complete(rows, pages) && Untied(rows) && AllDated(rows)
    ensures (set s | s in Listed(pages)) == rows
    ensures Distinct(Listed(pages)) && Descending(Listed(pages))
  {
    ListedOnceDescending(rows, None, pages);
    ListedArePast(rows, None, pages);
    forall s | s in rows
      ensures s in Listed(pages)
    {
      MissedExactly(rows, pages, s);
      if i :| 0 <= i < |pages| && Drops(pages[i], s) {
        DropNeedsTie(rows, None, pages, i);
        assert false;
      }
    }
  }

  /** A page's cursor is the time of a row on that page. */
  lemma {:induction false} DropNeedsTie(rows: set<Session>, cursor: Option<int>, pages: seq<Page>, i: nat)
    requires Chain(rows, cursor, pages) && i < |pages| && pages[i].Next().Some?
    ensures exists r | r in pages[i].Items() :: r in rows && r.at == pages[i].Next()
    decreases pages
  {
    if i == 0 {
      var page := pages[0];
      assert page.Items()[page.limit - 1] == page.fetched[page.limit - 1];
      assert page.Items()[page.limit - 1] in page.Items();
    } else {
      assert pages[i] == pages[1..][i - 1];
      DropNeedsTie(rows, pages[0].Next(), pages[1..], i - 1);
    }
  }

  /** A matching row with no matching row sooner. */
  lemma {:induction false} First(candidates: set<Session>) returns (m: Session)
    requires candidates != {}
    ensures m in candidates && forall s | s in candidates :: !Sooner(s.at, m.at)
    decreases |candidates|
  {
    var c :| c in candidates;
    if candidates == {c} {
      m := c;
    } else {
      var rest := candidates - {c};
      assert candidates == rest + {c};
      m := First(rest);
      if Sooner(c.at, m.at) {
        m := c;
      }
      assert forall s | s in candidates :: s == c || s in rest;
    }
  }

  /** A client asking for one session at a time always gets to an end. */
  lemma {:induction false} OneByOne(rows: set<Session>, cursor: Option<int>,
                                    candidates: set<Session>) returns (pages: seq<Page>)
    requires candidates == set s | s in rows && Past(s, cursor)
    ensures Chain(rows, cursor, pages) && pages != [] && pages[|pages| - 1].Next().None?
    ensures forall p | p in pages :: p.limit == 1
    ensures candidates != {} ==> pages[0].Items() != []
    decreases |candidates|
  {
    hide *;
    if candidates == {} {
      AllAnswer(rows, cursor, candidates, []);
      pages := OnlyPage(rows, cursor, []);
    } else {
      var a := First(candidates);
      var others := candidates - {a};
      if others == {} {
        OnlyOne(candidates, a);
        AllAnswer(rows, cursor, candidates, [a]);
        pages := OnlyPage(rows, cursor, [a]);
      } else {
        var b := First(others);
        TwoAnswer(rows, cursor, candidates, a, b);
        if a.at.None? {
          pages := OnlyPage(rows, cursor, [a, b]);
        } else {
          var later := set s | s in rows && Past(s, a.at);
          LaterFewer(rows, cursor, candidates, later, a);
          var rest := OneByOne(rows, a.at, later);
          pages := PageThen(rows, cursor, a, b, rest);
        }
      }
    }
  }

  /** A query that returned every match, at most one. */
  lemma AllAnswer(rows: set<Session>, cursor: Option<int>, candidates: set<Session>, fetched: seq<Session>)
    requires candidates == set s | s in rows && Past(s, cursor)
    requires |fetched| <= 1 && forall s | s in candidates :: s in fetched
    requires forall s | s in fetched :: s in candidates
    ensures Answers(rows, cursor, Page(1, fetched))
  {
    assert forall s | s in rows && Past(s, cursor) :: s in candidates;
  }

  lemma OnlyPage(rows: set<Session>, cursor: Option<int>, fetched: seq<Session>) returns (pages: seq<Page>)
    requires Answers(rows, cursor, Page(1, fetched)) && (|fetched| <= 1 || fetched[0].at.None?)
    ensures pages == [Page(1, fetched)] && Chain(rows, cursor, pages)
    ensures pages[0].Next().None? && (fetched != [] ==> pages[0].Items() != [])
  {
    hide Answers;
    pages := [Page(1, fetched)];
    assert pages[1..] == [];
  }

  lemma OnlyOne(candidates: set<Session>, a: Session)
    requires a in candidates && candidates - {a} == {}
    ensures candidates == {a}
  {
    assert candidates == candidates - {a} + {a};
  }

  lemma PageThen(rows: set<Session>, cursor: Option<int>, a: Session, b: Session,
                 rest: seq<Page>) returns (pages: seq<Page>)
    requires Answers(rows, cursor, Page(1, [a, b])) && a.at.Some? && Chain(rows, a.at, rest) && rest != []
    requires forall p | p in rest :: p.limit == 1
    ensures |pages| == 1 + |rest| && pages[|pages| - 1] == rest[|rest| - 1]
    ensures Chain(rows, cursor, pages) && pages[0].Items() == [a] && forall p | p in pages :: p.limit == 1
  {
    hide Answers;
    pages := [Page(1, [a, b])] + rest;
    assert pages[1..] == rest && pages[0].Next() == a.at;
  }

  lemma LaterFewer(rows: set<Session>, cursor: Option<int>, candidates: set<Session>, later: set<Session>, a: Session)
    requires candidates == set s | s in rows && Past(s, cursor)
    requires a in candidates && a.at.Some? && later == set s | s in rows && Past(s, a.at)
    ensures |later| < |candidates|
  {
    Shrinks(later, candidates, a);
  }

  lemma Shrinks(later: set<Session>, candidates: set<Session>, a: Session)
    requires later <= candidates && a in candidates && a !in later
    ensures |later| < |candidates|
  {
    var rest := candidates - {a};
    assert later <= rest;
    Fits(later, rest);
  }

  lemma {:induction false} Fits(a: set<Session>, b: set<Session>)
    requires a <= b
    ensures |a| <= |b|
    decreases a
  {
    if a != {} {
      var x :| x in a;
      Fits(a - {x}, b - {x});
    }
  }

  lemma TwoAnswer(rows: set<Session>, cursor: Option<int>, candidates: set<Session>, a: Session, b: Session)
    requires candidates == set s | s in rows && Past(s, cursor)
    requires a in candidates && b in candidates - {a}
    requires forall s | s in candidates :: !Sooner(s.at, a.at)
    requires forall s | s in candidates - {a} :: !Sooner(s.at, b.at)
    ensures Answers(rows, cursor, Page(1, [a, b]))
  {
    var page := Page(1, [a, b]);
    forall s | s in rows && Past(s, cursor) && s !in page.fetched
      ensures Beyond(s, page)
    {
      assert s in candidates - {a};
    }
  }

  /** With single-row pages, two listed sessions never share a time. */
  lemma {:induction false} SinglesAreUntied(rows: set<Session>, cursor: Option<int>, pages: seq<Page>, a: Session,
                                            b: Session)
    requires Chain(rows, cursor, pages) && forall p | p in pages :: p.limit == 1
    requires a in Listed(pages) && b in Listed(pages) && a.at == b.at
    ensures a == b
    decreases pages
  {
    if |pages| > 1 {
      PageAboveCursor(rows, cursor, pages[0]);
      ListedArePast(rows, pages[0].Next(), pages[1..]);
      assert forall p | p in pages[1..] :: p in pages;
      if a in Listed(pages[1..]) && b in Listed(pages[1..]) {
        SinglesAreUntied(rows, pages[0].Next(), pages[1..], a, b);
      }
    } else {
      assert Listed(pages) == pages[0].Items();
      assert pages[0] in pages;
    }
  }

  /** Every client, whatever limits it asks for, sees every session, if and only if
      times are distinct and none is NULL, or there is at most one session. */
  lemma NothingMissedExactlyWhen(rows: set<Session>)
    ensures (forall pages | Complete(rows, pages) :: forall s | s in rows :: s in Listed(pages))
       <==> (Untied(rows) && AllDated(rows)) || |rows| <= 1
  {
    if Untied(rows) && AllDated(rows) {
      forall pages, s | Complete(rows, pages) && s in rows
        ensures s in Listed(pages)
      {
        ListsEverySessionOnce(rows, pages);
        assert s in set x | x in Listed(pages);
      }
    } else if |rows| <= 1 {
      forall pages, s | Complete(rows, pages) && s in rows
        ensures s in Listed(pages)
      {
        LoneSessionListed(rows, pages, s);
      }
    } else {
      var pages := OneByOne(rows, None, set s | s in rows && Past(s, None));
      assert Complete(rows, pages);
      if forall s | s in rows :: s in Listed(pages) {
        AllListedOneByOne(rows, pages);
        assert false;
      }
    }
  }

  lemma LoneSessionListed(rows: set<Session>, pages: seq<Page>, s: Session)
    requires Complete(rows, pages) && s in rows && |rows| <= 1
    ensures s in Listed(pages)
  {
    var page := pages[0];
    DistinctFits(page.fetched, rows);
    assert |page.fetched| <= page.limit;
    assert s in page.fetched || Beyond(s, page);
  }

  lemma AllListedOneByOne(rows: set<Session>, pages: seq<Page>)
    requires Complete(rows, pages) && (forall p | p in pages :: p.limit == 1)
    requires forall s | s in rows :: s in Listed(pages)
    requires |rows| > 1
    ensures Untied(rows) && AllDated(rows)
  {
    forall a, b | a in rows && b in rows && a.at == b.at
      ensures a == b
    {
      SinglesAreUntied(rows, None, pages, a, b);
    }
    forall s | s in rows
      ensures s.at.Some?
    {
      if s.at.None? {
        UndatedNeedsRoom(rows, pages, s);
        assert false;
      }
    }
  }

  /** An undated session is not on a one-row first page when another session exists
      and everything is listed. */
  lemma UndatedNeedsRoom(rows: set<Session>, pages: seq<Page>, s: Session)
    requires Complete(rows, pages) && (forall p | p in pages :: p.limit == 1)
    requires s in rows && s.at.None? && |rows| > 1
    ensures exists r | r in rows :: r !in Listed(pages)
  {
    assert pages[0] in pages;
    MissedExactly(rows, pages, s);
    if s in Listed(pages) {
      assert pages[0].Items() == [s];
      assert pages[0].Next().None?;
      assert |pages| == 1 && Listed(pages) == [s];
      if rows <= {s} {
        Fits(rows, {s});
        assert false;
      }
    }
  }
}
