/** Cursor pagination in descending (time, id) order: a page is cut from limit + 1 rows and names the
    cursor of the next one. */
module Paging {
  import opened Common

  /** The columns that filters look at. */
  datatype Data =
    | Audit(auditCompany: Option<nat>, actor: Option<nat>, event: nat, result: nat)
    | Document(company: nat, status: nat, kind: nat, series: nat)

  datatype Row = Row(at: int, id: nat, data: Data)

  datatype Cursor = Cursor(at: int, id: nat)

  datatype Page = Page(items: seq<Row>, next: Option<Cursor>)

  /** a comes before b. */
  predicate Precedes(a: Row, b: Row) {
    a.at > b.at || (a.at == b.at && a.id > b.id)
  }

  predicate Beyond(r: Row, cursor: Option<Cursor>) {
    cursor.None? || r.at < cursor.value.at || (r.at == cursor.value.at && r.id < cursor.value.id)
  }

  predicate Descending(rows: seq<Row>) {
    forall i, j :: 0 <= i < j < |rows| ==> Precedes(rows[i], rows[j])
  }

  predicate DistinctIds(rows: seq<Row>) {
    forall i, j :: 0 <= i < j < |rows| ==> rows[i].id != rows[j].id
  }

  function Select(rows: seq<Row>, where: Row -> bool): seq<Row> {
    if rows == [] then [] else (if where(rows[0]) then [rows[0]] else []) + Select(rows[1..], where)
  }

  function Insert(r: Row, sorted: seq<Row>): seq<Row> {
    if sorted == [] || Precedes(r, sorted[0]) then [r] + sorted else [sorted[0]] + Insert(r, sorted[1..])
  }

  function SortDesc(rows: seq<Row>): seq<Row> {
    if rows == [] then [] else Insert(rows[0], SortDesc(rows[1..]))
  }

  function Take<T>(s: seq<T>, n: nat): seq<T> {
    if |s| <= n then s else s[..n]
  }

  /** All rows that satisfy the filter and lie beyond the cursor, in order. */
  function Matches(rows: seq<Row>, filter: Row -> bool, cursor: Option<Cursor>): seq<Row> {
    SortDesc(Select(rows, (r: Row) => filter(r) && Beyond(r, cursor)))
  }

  /** Cutting a page from the first limit + 1 matches. */
  function CutPage(found: seq<Row>, limit: nat): Page
    requires limit >= 1
  {
    if |found| > limit then Page(found[..limit], Some(Cursor(found[limit - 1].at, found[limit - 1].id)))
    else Page(found, None)
  }

  function PageOf(rows: seq<Row>, filter: Row -> bool, cursor: Option<Cursor>, limit: nat): Page
    requires limit >= 1
  {
    CutPage(Take(Matches(rows, filter, cursor), limit + 1), limit)
  }

  // ----- Order --------------------------------------------------------------------------------

  lemma {:induction false} SelectMeans(rows: seq<Row>, where: Row -> bool, r: Row)
    ensures r in Select(rows, where) <==> r in rows && where(r)
  {
    if rows != [] { SelectMeans(rows[1..], where, r); }
  }

  lemma {:induction false} SelectKeepsIds(rows: seq<Row>, where: Row -> bool)
    requires DistinctIds(rows)
    ensures DistinctIds(Select(rows, where))
  {
    if rows != [] {
      SelectKeepsIds(rows[1..], where);
      var tail := Select(rows[1..], where);
      forall i | 0 <= i < |tail|
        ensures tail[i].id != rows[0].id
      {
        SelectMeans(rows[1..], where, tail[i]);
      }
    }
  }

  lemma {:induction false} InsertKeeps(r: Row, sorted: seq<Row>)
    requires Descending(sorted) && forall i :: 0 <= i < |sorted| ==> sorted[i].id != r.id
    ensures Descending(Insert(r, sorted))
    ensures forall x :: x in Insert(r, sorted) <==> x == r || x in sorted
  {
    if sorted != [] && !Precedes(r, sorted[0]) {
      InsertKeeps(r, sorted[1..]);
      var tail := Insert(r, sorted[1..]);
      forall i | 0 <= i < |tail|
        ensures Precedes(sorted[0], tail[i])
      {
        assert tail[i] in tail;
      }
    }
  }

  lemma {:induction false} SortSorts(rows: seq<Row>)
    requires DistinctIds(rows)
    ensures Descending(SortDesc(rows))
    ensures forall x :: x in SortDesc(rows) <==> x in rows
  {
    if rows != [] {
      SortSorts(rows[1..]);
      forall i | 0 <= i < |SortDesc(rows[1..])|
        ensures SortDesc(rows[1..])[i].id != rows[0].id
      {
        assert SortDesc(rows[1..])[i] in rows[1..];
      }
      InsertKeeps(rows[0], SortDesc(rows[1..]));
    }
  }

  lemma MatchesMean(rows: seq<Row>, filter: Row -> bool, cursor: Option<Cursor>)
    requires DistinctIds(rows)
    ensures Descending(Matches(rows, filter, cursor))
    ensures forall r :: r in Matches(rows, filter, cursor) <==> r in rows && filter(r) && Beyond(r, cursor)
  {
    var where := (r: Row) => filter(r) && Beyond(r, cursor);
    SelectKeepsIds(rows, where);
    SortSorts(Select(rows, where));
    forall r
      ensures r in Select(rows, where) <==> r in rows && where(r)
    {
      SelectMeans(rows, where, r);
    }
  }

  lemma SameEmptiness(xs: seq<Row>, ys: seq<Row>)
    requires forall r :: r in xs <==> r in ys
    ensures xs == [] <==> ys == []
  {
    assert xs != [] ==> xs[0] in ys;
    assert ys != [] ==> ys[0] in xs;
  }

  lemma FirstIsFirst(xs: seq<Row>, ys: seq<Row>)
    requires Descending(xs) && Descending(ys) && xs != [] && ys != [] && forall r :: r in xs <==> r in ys
    ensures xs[0] == ys[0]
  {
    assert xs[0] in ys && ys[0] in xs;
    var i :| 0 <= i < |ys| && ys[i] == xs[0];
    var j :| 0 <= j < |xs| && xs[j] == ys[0];
    assert forall k :: 0 < k < |ys| ==> Precedes(ys[0], ys[k]);
    assert forall k :: 0 < k < |xs| ==> Precedes(xs[0], xs[k]);
  }

  /** There is only one descending arrangement of given rows. */
  lemma {:induction false} DescendingUnique(xs: seq<Row>, ys: seq<Row>)
    requires Descending(xs) && Descending(ys) && forall r :: r in xs <==> r in ys
    ensures xs == ys
  {
    SameEmptiness(xs, ys);
    if xs != [] {
      FirstIsFirst(xs, ys);
      forall r
        ensures r in xs[1..] <==> r in ys[1..]
      {
        InTail(xs, r);
        InTail(ys, r);
      }
      DescendingUnique(xs[1..], ys[1..]);
      assert xs == [xs[0]] + xs[1..] && ys == [ys[0]] + ys[1..];
    }
  }

  lemma InTail(xs: seq<Row>, r: Row)
    requires xs != [] && Descending(xs)
    ensures r in xs[1..] <==> r in xs && r != xs[0]
  {
    if r in xs && r != xs[0] {
      var k :| 0 <= k < |xs| && xs[k] == r;
      assert xs[1..][k - 1] == r;
    }
    if r in xs[1..] {
      var k :| 0 <= k < |xs[1..]| && xs[1..][k] == r;
      assert Precedes(xs[0], xs[k + 1]);
    }
  }

  // ----- One page to the next -----------------------------------------------------------------

  /** A page is a prefix of the matches, and what lies beyond its cursor is exactly the rest. */
  lemma PageIsPrefix(rows: seq<Row>, filter: Row -> bool, cursor: Option<Cursor>, limit: nat)
    requires DistinctIds(rows) && limit >= 1
    ensures var all, page := Matches(rows, filter, cursor), PageOf(rows, filter, cursor, limit);
            if |all| > limit
            then page.items == all[..limit] && page.next == Some(Cursor(all[limit - 1].at, all[limit - 1].id))
            else page == Page(all, None)
  {
    var all := Matches(rows, filter, cursor);
    if |all| > limit { assert Take(all, limit + 1)[..limit] == all[..limit]; }
  }

  lemma RestIsBeyond(all: seq<Row>, k: nat, r: Row)
    requires Descending(all) && 1 <= k <= |all|
    ensures r in all[k..] <==> r in all && Beyond(r, Some(Cursor(all[k - 1].at, all[k - 1].id)))
  {
    if r in all && Beyond(r, Some(Cursor(all[k - 1].at, all[k - 1].id))) {
      var i :| 0 <= i < |all| && all[i] == r;
      assert i < k - 1 ==> Precedes(all[i], all[k - 1]);
      assert all[k..][i - k] == r;
    }
    if r in all[k..] {
      var i :| 0 <= i < |all[k..]| && all[k..][i] == r;
      assert Precedes(all[k - 1], all[k + i]);
    }
  }

  lemma BeyondLaterCursor(r: Row, last: Row, cursor: Option<Cursor>)
    requires Beyond(last, cursor) && Beyond(r, Some(Cursor(last.at, last.id)))
    ensures Beyond(r, cursor)
  {
  }

  /** On a fixed table the next page's matches are what this page left. */
  lemma NextMatches(rows: seq<Row>, filter: Row -> bool, cursor: Option<Cursor>, k: nat)
    requires DistinctIds(rows) && 1 <= k <= |Matches(rows, filter, cursor)|
    ensures var all := Matches(rows, filter, cursor);
            Matches(rows, filter, Some(Cursor(all[k - 1].at, all[k - 1].id))) == all[k..]
  {
    var all := Matches(rows, filter, cursor);
    var next := Some(Cursor(all[k - 1].at, all[k - 1].id));
    MatchesMean(rows, filter, cursor);
    MatchesMean(rows, filter, next);
    forall r
      ensures r in Matches(rows, filter, next) <==> r in all[k..]
    {
      RestIsBeyond(all, k, r);
      assert all[k - 1] in all;
      if Beyond(r, next) { BeyondLaterCursor(r, all[k - 1], cursor); }
    }
    DescendingUnique(Matches(rows, filter, next), all[k..]);
  }

  // ----- Following the cursor on a fixed table ------------------------------------------------

  function Follow(rows: seq<Row>, filter: Row -> bool, cursor: Option<Cursor>, limit: nat): seq<Page>
    requires DistinctIds(rows) && limit >= 1
    decreases |Matches(rows, filter, cursor)|
  {
    var page := PageOf(rows, filter, cursor, limit);
    PageIsPrefix(rows, filter, cursor, limit);
    if page.next.None? then [page]
    else
      NextMatches(rows, filter, cursor, limit);
      [page] + Follow(rows, filter, page.next, limit)
  }

  function Items(pages: seq<Page>): seq<Row> {
    if pages == [] then [] else pages[0].items + Items(pages[1..])
  }

  function PageCount(n: nat, limit: nat): nat
    requires limit >= 1
  {
    if n <= limit then 1 else 1 + PageCount(n - limit, limit)
  }

  lemma OneMore(k: int, limit: int)
    ensures (k + 1) * limit == k * limit + limit
  {
  }

  /** max(1, ceil(n / limit)). */
  lemma {:induction false} PageCountIsCeiling(n: nat, limit: nat)
    requires limit >= 1
    ensures (PageCount(n, limit) - 1) * limit < (if n == 0 then 1 else n) <= PageCount(n, limit) * limit
  {
    if n > limit {
      PageCountIsCeiling(n - limit, limit);
      OneMore(PageCount(n - limit, limit), limit);
      OneMore(PageCount(n - limit, limit) - 1, limit);
    }
  }

  /** The pages hold the list in order, all of them full but the last, which alone names no next page. */
  predicate Partition(pages: seq<Page>, all: seq<Row>, limit: nat)
    requires limit >= 1
  {
    && Items(pages) == all
    && |pages| == PageCount(|all|, limit)
    && (forall i :: 0 <= i < |pages| - 1 ==> |pages[i].items| == limit && pages[i].next.Some?)
    && |pages[|pages| - 1].items| <= limit && pages[|pages| - 1].next.None?
  }

  lemma PartitionStep(page: Page, others: seq<Page>, all: seq<Row>, limit: nat)
    requires 1 <= limit < |all| && page.items == all[..limit] && page.next.Some?
    requires Partition(others, all[limit..], limit)
    ensures Partition([page] + others, all, limit)
  {
    FirstAndOthers(page, others);
    assert all == all[..limit] + all[limit..];
  }

  /** Following the cursor from the start returns the sorted matches, each once, in as many pages as it
      takes. */
  lemma {:induction false} FollowingReturnsMatches(rows: seq<Row>, filter: Row -> bool, cursor: Option<Cursor>,
                                                   limit: nat)
    requires DistinctIds(rows) && limit >= 1
    ensures Partition(Follow(rows, filter, cursor, limit), Matches(rows, filter, cursor), limit)
    decreases |Matches(rows, filter, cursor)|
  {
    var all, page := Matches(rows, filter, cursor), PageOf(rows, filter, cursor, limit);
    PageIsPrefix(rows, filter, cursor, limit);
    if page.next.None? {
      FirstAndOthers(page, []);
      assert [page] + [] == [page];
    } else {
      NextMatches(rows, filter, cursor, limit);
      FollowingReturnsMatches(rows, filter, page.next, limit);
      PartitionStep(page, Follow(rows, filter, page.next, limit), all, limit);
    }
  }

  // ----- Following the cursor while rows are appended -----------------------------------------

  /** Each page is read from its own state of the table. */
  function FollowOver(tables: seq<seq<Row>>, filter: Row -> bool, cursor: Option<Cursor>, limit: nat): seq<Page>
    requires limit >= 1
  {
    if tables == [] then []
    else
      var page := PageOf(tables[0], filter, cursor, limit);
      [page] + if page.next.None? then [] else FollowOver(tables[1..], filter, page.next, limit)
  }

  /** Rows only come, none goes or changes. */
  predicate OnlyGrows(tables: seq<seq<Row>>) {
    && (forall i :: 0 <= i < |tables| ==> DistinctIds(tables[i]))
    && (forall i, j :: 0 <= i < j < |tables| ==> forall r :: r in tables[i] ==> r in tables[j])
  }

  /** The items of a page in so many words: at most `limit` of the rows asked for, latest first and by descending id
      among equal times, all of them unless there are more; what is left out comes after them. */
  ghost predicate Lists(rows: seq<Row>, asked: Row -> bool, limit: nat, items: seq<Row>, more: bool) {
    && |items| <= limit
    && (forall i, j :: 0 <= i < j < |items| ==>
          items[i].at > items[j].at || (items[i].at == items[j].at && items[i].id > items[j].id))
    && (forall r :: r in items ==> r in rows && asked(r))
    && (forall r, i :: r in rows && asked(r) && r !in items && 0 <= i < |items| ==>
          items[i].at > r.at || (items[i].at == r.at && items[i].id > r.id))
    && (more ==> |items| == limit && exists r :: r in rows && asked(r) && r !in items)
    && (!more ==> forall r :: r in rows && asked(r) ==> r in items)
  }

  lemma PageLists(rows: seq<Row>, filter: Row -> bool, cursor: Option<Cursor>, limit: nat, asked: Row -> bool)
    requires DistinctIds(rows) && limit >= 1 && forall r :: asked(r) <==> filter(r) && Beyond(r, cursor)
    ensures var page := PageOf(rows, filter, cursor, limit);
            && Lists(rows, asked, limit, page.items, page.next.Some?)
            && (page.next.Some? ==> page.next.value == Cursor(page.items[limit - 1].at, page.items[limit - 1].id))
  {
    var all, page := Matches(rows, filter, cursor), PageOf(rows, filter, cursor, limit);
    MatchesMean(rows, filter, cursor);
    PageIsPrefix(rows, filter, cursor, limit);
    forall r, i | r in rows && asked(r) && r !in page.items && 0 <= i < |page.items|
      ensures Precedes(page.items[i], r)
    {
      PageOrBeyond(rows, filter, cursor, limit, r);
      BeyondThePage(rows, filter, cursor, limit, r);
      assert page.items[i] in page.items;
    }
    if page.next.Some? { NextIsLeftOut(all, limit); }
  }

  lemma NextIsLeftOut(all: seq<Row>, limit: nat)
    requires Descending(all) && limit < |all|
    ensures all[limit] in all && all[limit] !in all[..limit]
  {
    forall i | 0 <= i < limit
      ensures all[..limit][i] != all[limit]
    {
      assert Precedes(all[i], all[limit]);
    }
  }

  predicate Complete(pages: seq<Page>) {
    pages != [] && pages[|pages| - 1].next.None?
  }

  lemma PageItems(rows: seq<Row>, filter: Row -> bool, cursor: Option<Cursor>, limit: nat)
    requires DistinctIds(rows) && limit >= 1
    ensures var items := PageOf(rows, filter, cursor, limit).items;
            Descending(items) && forall r :: r in items ==> r in rows && filter(r) && Beyond(r, cursor)
  {
    MatchesMean(rows, filter, cursor);
    PageIsPrefix(rows, filter, cursor, limit);
  }

  /** A row beyond a page's cursor comes after the whole page. */
  lemma BeyondThePage(rows: seq<Row>, filter: Row -> bool, cursor: Option<Cursor>, limit: nat, r: Row)
    requires DistinctIds(rows) && limit >= 1
    requires PageOf(rows, filter, cursor, limit).next.Some? && Beyond(r, PageOf(rows, filter, cursor, limit).next)
    ensures Beyond(r, cursor)
    ensures forall x :: x in PageOf(rows, filter, cursor, limit).items ==> Precedes(x, r)
  {
    var all := Matches(rows, filter, cursor);
    MatchesMean(rows, filter, cursor);
    PageIsPrefix(rows, filter, cursor, limit);
    assert all[limit - 1] in all;
    BeyondLaterCursor(r, all[limit - 1], cursor);
    forall x | x in all[..limit]
      ensures Precedes(x, r)
    {
      var i :| 0 <= i < limit && all[i] == x;
      assert i == limit - 1 || Precedes(all[i], all[limit - 1]);
    }
  }

  /** A match is on the page or beyond it. */
  lemma PageOrBeyond(rows: seq<Row>, filter: Row -> bool, cursor: Option<Cursor>, limit: nat, r: Row)
    requires DistinctIds(rows) && limit >= 1 && r in rows && filter(r) && Beyond(r, cursor)
    ensures var page := PageOf(rows, filter, cursor, limit);
            r in page.items || (page.next.Some? && Beyond(r, page.next))
  {
    var all := Matches(rows, filter, cursor);
    MatchesMean(rows, filter, cursor);
    PageIsPrefix(rows, filter, cursor, limit);
    assert r in all;
    var i :| 0 <= i < |all| && all[i] == r;
    if |all| > limit {
      if i < limit {
        assert all[..limit][i] == r;
      } else {
        assert all[limit..][i - limit] == r;
        RestIsBeyond(all, limit, r);
      }
    }
  }

  lemma DescendingConcat(xs: seq<Row>, ys: seq<Row>)
    requires Descending(xs) && Descending(ys)
    requires forall x, y :: x in xs && y in ys ==> Precedes(x, y)
    ensures Descending(xs + ys)
  {
    forall i, j | 0 <= i < j < |xs + ys|
      ensures Precedes((xs + ys)[i], (xs + ys)[j])
    {
      if i < |xs| <= j { assert xs[i] in xs && ys[j - |xs|] in ys; }
    }
  }

  lemma AllBeyond(rows: seq<Row>, filter: Row -> bool, cursor: Option<Cursor>, limit: nat, others: seq<Row>)
    requires DistinctIds(rows) && limit >= 1 && PageOf(rows, filter, cursor, limit).next.Some?
    requires forall r :: r in others ==> Beyond(r, PageOf(rows, filter, cursor, limit).next)
    ensures forall r :: r in others ==> Beyond(r, cursor)
    ensures forall x, r :: x in PageOf(rows, filter, cursor, limit).items && r in others ==> Precedes(x, r)
  {
    forall r | r in others
      ensures Beyond(r, cursor) && forall x :: x in PageOf(rows, filter, cursor, limit).items ==> Precedes(x, r)
    {
      BeyondThePage(rows, filter, cursor, limit, r);
    }
  }

  /** In order, hence without repetition, and only matches beyond the cursor. */
  predicate Clean(items: seq<Row>, rows: seq<Row>, filter: Row -> bool, cursor: Option<Cursor>) {
    Descending(items) && forall r :: r in items ==> r in rows && filter(r) && Beyond(r, cursor)
  }

  lemma CleanConcat(page: Page, others: seq<Row>, rows: seq<Row>, later: seq<Row>, filter: Row -> bool,
                    cursor: Option<Cursor>, limit: nat)
    requires DistinctIds(rows) && limit >= 1 && page == PageOf(rows, filter, cursor, limit) && page.next.Some?
    requires Clean(others, later, filter, page.next) && forall r :: r in rows ==> r in later
    ensures Clean(page.items + others, later, filter, cursor)
  {
    PageItems(rows, filter, cursor, limit);
    AllBeyond(rows, filter, cursor, limit, others);
    DescendingConcat(page.items, others);
  }

  lemma FollowOverUnfolds(tables: seq<seq<Row>>, filter: Row -> bool, cursor: Option<Cursor>, limit: nat)
    requires limit >= 1 && tables != []
    ensures var page := PageOf(tables[0], filter, cursor, limit);
            FollowOver(tables, filter, cursor, limit) ==
              [page] + if page.next.None? || |tables| == 1 then []
                       else FollowOver(tables[1..], filter, page.next, limit)
  {
    if |tables| == 1 { assert tables[1..] == []; }
  }

  /** Over a growing table nothing repeats, and everything returned matches. */
  lemma {:induction false} NothingRepeats(tables: seq<seq<Row>>, filter: Row -> bool, cursor: Option<Cursor>,
                                          limit: nat)
    requires OnlyGrows(tables) && limit >= 1 && tables != []
    ensures Clean(Items(FollowOver(tables, filter, cursor, limit)), tables[|tables| - 1], filter, cursor)
  {
    var page := PageOf(tables[0], filter, cursor, limit);
    PageItems(tables[0], filter, cursor, limit);
    FirstAndOthers(page, []);
    FollowOverUnfolds(tables, filter, cursor, limit);
    if page.next.Some? && |tables| > 1 {
      NothingRepeats(tables[1..], filter, page.next, limit);
      var others := FollowOver(tables[1..], filter, page.next, limit);
      CleanConcat(page, Items(others), tables[0], tables[|tables| - 1], filter, cursor, limit);
      FirstAndOthers(page, others);
    }
  }

  lemma FirstAndOthers(page: Page, others: seq<Page>)
    ensures Items([page] + others) == page.items + Items(others)
    ensures Items([page] + []) == page.items
  {
    assert ([page] + others)[1..] == others;
    assert ([page] + [])[1..] == [];
  }

  /** ... and once there is no next page, every match that was there from the start has been returned. */
  lemma {:induction false} NothingIsMissed(tables: seq<seq<Row>>, filter: Row -> bool, cursor: Option<Cursor>,
                                           limit: nat, r: Row)
    requires OnlyGrows(tables) && limit >= 1 && tables != []
    requires Complete(FollowOver(tables, filter, cursor, limit))
    requires r in tables[0] && filter(r) && Beyond(r, cursor)
    ensures r in Items(FollowOver(tables, filter, cursor, limit))
  {
    var page := PageOf(tables[0], filter, cursor, limit);
    PageOrBeyond(tables[0], filter, cursor, limit, r);
    if page.next.None? {
      FirstAndOthers(page, []);
    } else {
      var others := FollowOver(tables[1..], filter, page.next, limit);
      FirstAndOthers(page, others);
      if r !in page.items {
        assert r in tables[1];
        NothingIsMissed(tables[1..], filter, page.next, limit, r);
      }
    }
  }

  /** With appends between any two pages: no row twice, only matches, and all that matched at the start. */
  lemma AppendsDoNoHarm(tables: seq<seq<Row>>, filter: Row -> bool, limit: nat, r: Row)
    requires OnlyGrows(tables) && limit >= 1 && tables != []
    ensures var pages := FollowOver(tables, filter, None, limit);
            && Descending(Items(pages))
            && (r in Items(pages) ==> r in tables[|tables| - 1] && filter(r))
            && (Complete(pages) && r in tables[0] && filter(r) ==> r in Items(pages))
  {
    NothingRepeats(tables, filter, None, limit);
    if Complete(FollowOver(tables, filter, None, limit)) && r in tables[0] && filter(r) {
      NothingIsMissed(tables, filter, None, limit, r);
    }
  }

  // ----- Paging by the id of the last row -----------------------------------------------------

  /** The rows from the cursor row on, without the cursor row itself: `cursor` with `skip: 1`. */
  function MatchesFrom(rows: seq<Row>, filter: Row -> bool, cursor: Option<Row>): seq<Row> {
    var all := SortDesc(Select(rows, filter));
    if cursor.None? then all
    else Drop(Select(all, (r: Row) => !Precedes(r, cursor.value)), 1)
  }

  function Drop<T>(s: seq<T>, n: nat): seq<T> {
    if |s| <= n then [] else s[n..]
  }

  function RowWithId(rows: seq<Row>, id: nat): Option<Row> {
    if rows == [] then None else if rows[0].id == id then Some(rows[0]) else RowWithId(rows[1..], id)
  }

  datatype IdPage = IdPage(items: seq<Row>, next: Option<nat>)

  /** A page by id cursor; nothing for a cursor that names no row. */
  function PageById(rows: seq<Row>, filter: Row -> bool, cursor: Option<nat>, limit: nat): Option<IdPage>
    requires limit >= 1
  {
    var row := if cursor.None? then None else RowWithId(rows, cursor.value);
    if cursor.Some? && row.None? then None
    else
      Some(CutById(Take(MatchesFrom(rows, filter, row), limit + 1), limit))
  }

  function CutById(found: seq<Row>, limit: nat): IdPage
    requires limit >= 1
  {
    if |found| > limit then IdPage(found[..limit], Some(found[limit - 1].id)) else IdPage(found, None)
  }

  lemma {:induction false} FindsRow(rows: seq<Row>, r: Row)
    requires DistinctIds(rows) && r in rows
    ensures RowWithId(rows, r.id) == Some(r)
  {
    if rows[0] != r {
      var k :| 0 <= k < |rows| && rows[k] == r;
      assert rows[1..][k - 1] == r;
      FindsRow(rows[1..], r);
    }
  }

  /** In a descending list, the rows not before its k-th are the list from k on. */
  lemma {:induction false} NotBefore(all: seq<Row>, k: nat)
    requires Descending(all) && k < |all|
    ensures Select(all, (r: Row) => !Precedes(r, all[k])) == all[k..]
  {
    var where := (r: Row) => !Precedes(r, all[k]);
    SelectSuffix(all, where, k);
    assert all[0..] == all;
  }

  lemma {:induction false} SelectSuffix(all: seq<Row>, where: Row -> bool, k: nat)
    requires k <= |all|
    requires forall i :: 0 <= i < |all| ==> (where(all[i]) <==> i >= k)
    ensures Select(all, where) == all[k..]
  {
    if all != [] {
      assert forall i :: 0 <= i < |all| - 1 ==> all[1..][i] == all[i + 1];
      SelectSuffix(all[1..], where, if k == 0 then 0 else k - 1);
      if k == 0 {
        assert all == [all[0]] + all[1..];
        assert all[1..][0..] == all[1..];
      } else {
        assert all[1..][k - 1..] == all[k..];
      }
    }
  }

  lemma StartIsAll(rows: seq<Row>, filter: Row -> bool)
    requires DistinctIds(rows)
    ensures MatchesFrom(rows, filter, None) == Matches(rows, filter, None)
  {
    MatchesMean(rows, filter, None);
    SelectKeepsIds(rows, filter);
    SortSorts(Select(rows, filter));
    forall r
      ensures r in Select(rows, filter) <==> r in rows && filter(r)
    {
      SelectMeans(rows, filter, r);
    }
    DescendingUnique(SortDesc(Select(rows, filter)), Matches(rows, filter, None));
  }

  /** On a fixed table, the id of a returned row stands for its place in the order. */
  lemma IdCursorAgrees(rows: seq<Row>, filter: Row -> bool, r: Row)
    requires DistinctIds(rows) && r in rows && filter(r)
    ensures MatchesFrom(rows, filter, Some(r)) == Matches(rows, filter, Some(Cursor(r.at, r.id)))
  {
    StartIsAll(rows, filter);
    MatchesMean(rows, filter, None);
    var all := Matches(rows, filter, None);
    assert r in all;
    var k :| 0 <= k < |all| && all[k] == r;
    NotBefore(all, k);
    NextMatches(rows, filter, None, k + 1);
    assert Drop(all[k..], 1) == all[k + 1..];
  }

  lemma {:induction false} SelectKeepsOrder(all: seq<Row>, where: Row -> bool)
    requires Descending(all)
    ensures Descending(Select(all, where))
  {
    if all != [] {
      SelectKeepsOrder(all[1..], where);
      var tail := Select(all[1..], where);
      forall i | 0 <= i < |tail|
        ensures Precedes(all[0], tail[i])
      {
        SelectMeans(all[1..], where, tail[i]);
        var k :| 0 <= k < |all[1..]| && all[1..][k] == tail[i];
        assert all[k + 1] == tail[i];
      }
    }
  }

  /** A row that the filter leaves out is no good cursor: the first row after it is lost. */
  lemma ForeignCursorLosesOne(rows: seq<Row>, filter: Row -> bool, r: Row)
    requires DistinctIds(rows) && r in rows && !filter(r)
    ensures MatchesFrom(rows, filter, Some(r)) == Drop(Matches(rows, filter, Some(Cursor(r.at, r.id))), 1)
  {
    var all, after := Matches(rows, filter, None), Matches(rows, filter, Some(Cursor(r.at, r.id)));
    var where := (x: Row) => !Precedes(x, r);
    StartIsAll(rows, filter);
    MatchesMean(rows, filter, None);
    MatchesMean(rows, filter, Some(Cursor(r.at, r.id)));
    SelectKeepsOrder(all, where);
    forall x
      ensures x in Select(all, where) <==> x in after
    {
      SelectMeans(all, where, x);
      if x in all { OtherId(rows, x, r); }
    }
    DescendingUnique(Select(all, where), after);
  }

  lemma OtherId(rows: seq<Row>, x: Row, r: Row)
    requires DistinctIds(rows) && x in rows && r in rows && x != r
    ensures x.id != r.id
  {
  }

  /** The id cursor gives the rows after the cursor row if and only if the filter passes the cursor row or nothing
      comes after it. */
  lemma IdCursorAgreesIff(rows: seq<Row>, filter: Row -> bool, r: Row)
    requires DistinctIds(rows) && r in rows
    ensures var after := Matches(rows, filter, Some(Cursor(r.at, r.id)));
            MatchesFrom(rows, filter, Some(r)) == after <==> filter(r) || after == []
  {
    if filter(r) {
      IdCursorAgrees(rows, filter, r);
    } else {
      ForeignCursorLosesOne(rows, filter, r);
    }
  }

  function KeyOf(last: Option<Row>): Option<Cursor> {
    if last.None? then None else Some(Cursor(last.value.at, last.value.id))
  }

  function IdOf(last: Option<Row>): Option<nat> {
    if last.None? then None else Some(last.value.id)
  }

  /** The row whose cursor a page hands on. */
  function LastOf(page: Page): Option<Row> {
    if page.next.None? || page.items == [] then None else Some(page.items[|page.items| - 1])
  }

  lemma CutsAgree(found: seq<Row>, limit: nat)
    requires limit >= 1
    ensures var page := CutPage(found, limit);
            && CutById(found, limit) == IdPage(page.items, IdOf(LastOf(page)))
            && page.next == KeyOf(LastOf(page))
            && (LastOf(page).Some? ==> LastOf(page).value in page.items)
  {
  }

  lemma SameMatches(rows: seq<Row>, filter: Row -> bool, last: Option<Row>)
    requires DistinctIds(rows) && (last.Some? ==> last.value in rows && filter(last.value))
    ensures MatchesFrom(rows, filter, last) == Matches(rows, filter, KeyOf(last))
    ensures last.Some? ==> RowWithId(rows, last.value.id) == last
  {
    if last.None? {
      StartIsAll(rows, filter);
    } else {
      FindsRow(rows, last.value);
      IdCursorAgrees(rows, filter, last.value);
    }
  }

  /** Page by page, the id cursor returns what the keyset cursor returns, and hands on the same row. */
  lemma IdPagesAgree(rows: seq<Row>, filter: Row -> bool, last: Option<Row>, limit: nat)
    requires DistinctIds(rows) && limit >= 1 && (last.Some? ==> last.value in rows && filter(last.value))
    ensures var page := PageOf(rows, filter, KeyOf(last), limit);
            && PageById(rows, filter, IdOf(last), limit) == Some(IdPage(page.items, IdOf(LastOf(page))))
            && page.next == KeyOf(LastOf(page))
            && (LastOf(page).Some? ==> LastOf(page).value in rows && filter(LastOf(page).value))
  {
    SameMatches(rows, filter, last);
    CutsAgree(Take(Matches(rows, filter, KeyOf(last)), limit + 1), limit);
    PageItems(rows, filter, KeyOf(last), limit);
  }

  /** Following the id cursor for some pages at most, as long as each cursor names a row. */
  function FollowById(rows: seq<Row>, filter: Row -> bool, cursor: Option<nat>, limit: nat, pages: nat): seq<IdPage>
    requires limit >= 1
    decreases pages
  {
    var page := PageById(rows, filter, cursor, limit);
    if page.None? || pages == 0 then []
    else [page.value] + if page.value.next.None? then []
         else FollowById(rows, filter, page.value.next, limit, pages - 1)
  }

  predicate SameItems(byId: seq<IdPage>, pages: seq<Page>) {
    && |byId| == |pages|
    && (forall i :: 0 <= i < |pages| ==> byId[i].items == pages[i].items)
    && (byId != [] ==> byId[|byId| - 1].next.None? == pages[|pages| - 1].next.None?)
  }

  lemma FollowUnfolds(rows: seq<Row>, filter: Row -> bool, cursor: Option<Cursor>, limit: nat)
    requires DistinctIds(rows) && limit >= 1
    ensures var page := PageOf(rows, filter, cursor, limit);
            && (page.next.None? ==> Follow(rows, filter, cursor, limit) == [page])
            && (page.next.Some? ==>
                  && Follow(rows, filter, cursor, limit) == [page] + Follow(rows, filter, page.next, limit)
                  && |Matches(rows, filter, page.next)| < |Matches(rows, filter, cursor)|)
  {
    PageIsPrefix(rows, filter, cursor, limit);
    if PageOf(rows, filter, cursor, limit).next.Some? { NextMatches(rows, filter, cursor, limit); }
  }

  lemma SameItemsStep(byId: IdPage, page: Page, ids: seq<IdPage>, pages: seq<Page>)
    requires byId.items == page.items && SameItems(ids, pages) && pages != []
    ensures SameItems([byId] + ids, [page] + pages)
  {
  }

  lemma FollowByIdUnfolds(rows: seq<Row>, filter: Row -> bool, cursor: Option<nat>, limit: nat, pages: nat,
                          page: IdPage)
    requires limit >= 1 && pages >= 1 && PageById(rows, filter, cursor, limit) == Some(page)
    ensures page.next.None? ==> FollowById(rows, filter, cursor, limit, pages) == [page]
    ensures page.next.Some? ==>
              FollowById(rows, filter, cursor, limit, pages)
                  == [page] + FollowById(rows, filter, page.next, limit, pages - 1)
  {
  }

  lemma FollowIsNotEmpty(rows: seq<Row>, filter: Row -> bool, cursor: Option<Cursor>, limit: nat)
    requires DistinctIds(rows) && limit >= 1
    ensures Follow(rows, filter, cursor, limit) != []
  {
  }

  function ByIds(rows: seq<Row>, filter: Row -> bool, last: Option<Row>, limit: nat): seq<IdPage>
    requires DistinctIds(rows) && limit >= 1
  {
    FollowById(rows, filter, IdOf(last), limit, |Follow(rows, filter, KeyOf(last), limit)|)
  }

  lemma LastPageAgrees(rows: seq<Row>, filter: Row -> bool, last: Option<Row>, limit: nat)
    requires DistinctIds(rows) && limit >= 1 && (last.Some? ==> last.value in rows && filter(last.value))
    requires PageOf(rows, filter, KeyOf(last), limit).next.None?
    ensures SameItems(ByIds(rows, filter, last, limit), Follow(rows, filter, KeyOf(last), limit))
  {
    IdPagesAgree(rows, filter, last, limit);
    FollowUnfolds(rows, filter, KeyOf(last), limit);
    FollowByIdUnfolds(rows, filter, IdOf(last), limit, 1, IdPage(PageOf(rows, filter, KeyOf(last), limit).items, None));
  }

  lemma EarlierPageAgrees(rows: seq<Row>, filter: Row -> bool, last: Option<Row>, limit: nat, next: Option<Row>)
    requires DistinctIds(rows) && limit >= 1 && (last.Some? ==> last.value in rows && filter(last.value))
    requires PageOf(rows, filter, KeyOf(last), limit).next.Some?
             && next == LastOf(PageOf(rows, filter, KeyOf(last), limit))
    requires SameItems(ByIds(rows, filter, next, limit), Follow(rows, filter, KeyOf(next), limit))
    ensures SameItems(ByIds(rows, filter, last, limit), Follow(rows, filter, KeyOf(last), limit))
  {
    var page := PageOf(rows, filter, KeyOf(last), limit);
    var byId := IdPage(page.items, IdOf(next));
    var others := Follow(rows, filter, KeyOf(next), limit);
    IdPagesAgree(rows, filter, last, limit);
    FollowUnfolds(rows, filter, KeyOf(last), limit);
    FollowIsNotEmpty(rows, filter, KeyOf(next), limit);
    FollowByIdUnfolds(rows, filter, IdOf(last), limit, 1 + |others|, byId);
    SameItemsStep(byId, page, ByIds(rows, filter, next, limit), others);
  }

  /** On a fixed table the id cursor partitions the sorted matches into the same pages as the keyset
      cursor. */
  lemma {:induction false} FollowingIdsAgrees(rows: seq<Row>, filter: Row -> bool, last: Option<Row>, limit: nat)
    requires DistinctIds(rows) && limit >= 1 && (last.Some? ==> last.value in rows && filter(last.value))
    ensures SameItems(ByIds(rows, filter, last, limit), Follow(rows, filter, KeyOf(last), limit))
    decreases |Matches(rows, filter, KeyOf(last))|
  {
    var page := PageOf(rows, filter, KeyOf(last), limit);
    if page.next.None? {
      LastPageAgrees(rows, filter, last, limit);
    } else {
      IdPagesAgree(rows, filter, last, limit);
      FollowUnfolds(rows, filter, KeyOf(last), limit);
      FollowingIdsAgrees(rows, filter, LastOf(page), limit);
      EarlierPageAgrees(rows, filter, last, limit, LastOf(page));
    }
  }
}
