/** The two listing operations as code: filters are collected step by step, then limit + 1 rows are read
    and a page is cut from them. */
module PagingQueries {
  import opened Common
  import opened Paging

  const DEFAULT_LIMIT := 50
  const MAX_LIMIT := 100

  /** A limit as sent: absent, or any integer. */
  function ParseLimit(limit: Option<int>): Option<nat> {
    if limit.None? then Some(DEFAULT_LIMIT)
    else if 1 <= limit.value <= MAX_LIMIT then Some(limit.value)
    else None
  }

  predicate WithinDates(from: Option<int>, to: Option<int>, at: int) {
    (from.Some? ==> from.value <= at) && (to.Some? ==> at <= to.value)
  }

  predicate DatesInOrder(from: Option<int>, to: Option<int>) {
    from.Some? && to.Some? ==> from.value <= to.value
  }

  lemma {:induction false} SelectSame(rows: seq<Row>, f: Row -> bool, g: Row -> bool)
    requires forall r :: f(r) == g(r)
    ensures Select(rows, f) == Select(rows, g)
  {
    if rows != [] { SelectSame(rows[1..], f, g); }
  }

  // ----- Audit events -------------------------------------------------------------------------

  datatype AuditQuery = AuditQuery(
    limit: Option<int>, company: Option<nat>, actor: Option<nat>, event: Option<nat>, result: Option<nat>,
    from: Option<int>, to: Option<int>)

  /** What a query asks for. */
  predicate Wanted(q: AuditQuery, r: Row) {
    && r.data.Audit?
    && (q.company.Some? ==> r.data.auditCompany == q.company)
    && (q.actor.Some? ==> r.data.actor == q.actor)
    && (q.event.Some? ==> r.data.event == q.event.value)
    && (q.result.Some? ==> r.data.result == q.result.value)
    && WithinDates(q.from, q.to, r.at)
  }

  /** The conditions of the where object; the date bounds come as one condition. */
  datatype AuditWhere = AuditWhere(
    company: Option<nat>, actor: Option<nat>, event: Option<nat>, result: Option<nat>,
    occurredAt: Option<(Option<int>, Option<int>)>, cursor: Option<Cursor>)

  predicate Satisfies(w: AuditWhere, r: Row) {
    && r.data.Audit?
    && (w.company.Some? ==> r.data.auditCompany == w.company)
    && (w.actor.Some? ==> r.data.actor == w.actor)
    && (w.event.Some? ==> r.data.event == w.event.value)
    && (w.result.Some? ==> r.data.result == w.result.value)
    && (w.occurredAt.Some? && w.occurredAt.value.0.Some? ==> r.at >= w.occurredAt.value.0.value)
    && (w.occurredAt.Some? && w.occurredAt.value.1.Some? ==> r.at <= w.occurredAt.value.1.value)
    && Beyond(r, w.cursor)
  }

  method BuildWhere(q: AuditQuery, cursor: Option<Cursor>) returns (where: AuditWhere)
    ensures forall r :: Satisfies(where, r) <==> Wanted(q, r) && Beyond(r, cursor)
  {
    where := AuditWhere(None, None, None, None, None, None);
    if q.company.Some? { where := where.(company := q.company); }
    if q.actor.Some? { where := where.(actor := q.actor); }
    if q.event.Some? { where := where.(event := q.event); }
    if q.result.Some? { where := where.(result := q.result); }
    if q.from.Some? || q.to.Some? {
      where := where.(occurredAt := Some((None, None)));
      if q.from.Some? { where := where.(occurredAt := Some((q.from, where.occurredAt.value.1))); }
      if q.to.Some? { where := where.(occurredAt := Some((where.occurredAt.value.0, q.to))); }
    }
    if cursor.Some? { where := where.(cursor := cursor); }
  }

  lemma WhereSelectsMatches(table: seq<Row>, q: AuditQuery, cursor: Option<Cursor>, where: AuditWhere,
                            filter: Row -> bool)
    requires forall r :: Satisfies(where, r) <==> Wanted(q, r) && Beyond(r, cursor)
    requires forall r :: filter(r) == Wanted(q, r)
    ensures SortDesc(Select(table, (r: Row) => Satisfies(where, r))) == Matches(table, filter, cursor)
  {
    SelectSame(table, (r: Row) => Satisfies(where, r), (r: Row) => filter(r) && Beyond(r, cursor));
  }

  /** A row that the caller asks for, in so many words: an audit event of the company, by the actor, of the kind and
      with the result that the query names, no earlier than `from` and no later than `to`, and past the cursor. */
  predicate Asked(q: AuditQuery, cursor: Option<Cursor>, r: Row) {
    && r.data.Audit?
    && (q.company.None? || r.data.auditCompany == q.company) && (q.actor.None? || r.data.actor == q.actor)
    && (q.event.None? || r.data.event == q.event.value) && (q.result.None? || r.data.result == q.result.value)
    && (q.from.None? || q.from.value <= r.at) && (q.to.None? || r.at <= q.to.value)
    && (cursor.None? || r.at < cursor.value.at || (r.at == cursor.value.at && r.id < cursor.value.id))
  }

  /** A page of up to `limit` rows asked for, with the last one as the next cursor if there are more. */
  ghost predicate IsAuditPage(table: seq<Row>, q: AuditQuery, cursor: Option<Cursor>, limit: nat, page: Page) {
    && Lists(table, (r: Row) => Asked(q, cursor, r), limit, page.items, page.next.Some?)
    && (page.next.Some? ==>
          && |page.items| == limit >= 1
          && page.next.value == Cursor(page.items[limit - 1].at, page.items[limit - 1].id))
  }

  lemma AskedMeans(table: seq<Row>, q: AuditQuery, cursor: Option<Cursor>, limit: nat)
    requires DistinctIds(table) && limit >= 1
    ensures IsAuditPage(table, q, cursor, limit, PageOf(table, (r: Row) => Wanted(q, r), cursor, limit))
  {
    PageLists(table, (r: Row) => Wanted(q, r), cursor, limit, (r: Row) => Asked(q, cursor, r));
  }

  /** Reading limit + 1 rows and cutting the page from them. */
  method ReadPage(table: seq<Row>, q: AuditQuery, cursor: Option<Cursor>, limit: nat) returns (page: Page)
    requires limit >= 1
    ensures page == PageOf(table, (r: Row) => Wanted(q, r), cursor, limit)
  {
    var where := BuildWhere(q, cursor);
    var found := Take(SortDesc(Select(table, (r: Row) => Satisfies(where, r))), limit + 1);
    WhereSelectsMatches(table, q, cursor, where, (r: Row) => Wanted(q, r));
    var hasNextPage := |found| > limit;
    var items := if hasNextPage then found[..limit] else found;
    var next := None;
    if hasNextPage && |items| > 0 {
      next := Some(Cursor(items[|items| - 1].at, items[|items| - 1].id));
    }
    page := Page(items, next);
  }

  /** The page of the query at the cursor; nothing for a query that is refused. */
  method ListAuditEvents(table: seq<Row>, q: AuditQuery, cursor: Option<Cursor>) returns (page: Option<Page>)
    ensures page.Some? <==>
              && (q.limit.None? || 1 <= q.limit.value <= 100)
              && (q.from.None? || q.to.None? || q.from.value <= q.to.value)
    ensures page.Some? && DistinctIds(table) ==>
              IsAuditPage(table, q, cursor, if q.limit.None? then 50 else q.limit.value, page.value)
    ensures page.Some? ==> page.value == PageOf(table, (r: Row) => Wanted(q, r), cursor, ParseLimit(q.limit).value)
  {
    var parsed := ParseLimit(q.limit);
    if parsed.None? || (q.from.Some? && q.to.Some? && q.from.value > q.to.value) { return None; }
    var read := ReadPage(table, q, cursor, parsed.value);
    if DistinctIds(table) { AskedMeans(table, q, cursor, parsed.value); }
    page := Some(read);
  }

  // ----- Documents ----------------------------------------------------------------------------

  datatype DocumentQuery = DocumentQuery(
    limit: Option<int>, status: Option<nat>, kind: Option<nat>, series: Option<nat>, from: Option<int>, to: Option<int>)

  predicate WantedDocument(company: nat, q: DocumentQuery, r: Row) {
    && r.data.Document? && r.data.company == company
    && (q.status.Some? ==> r.data.status == q.status.value)
    && (q.kind.Some? ==> r.data.kind == q.kind.value)
    && (q.series.Some? ==> r.data.series == q.series.value)
    && WithinDates(q.from, q.to, r.at)
  }

  /** A row that the caller asks for, in so many words, and past the row `start`. */
  predicate AskedDocument(company: nat, q: DocumentQuery, start: Option<Row>, r: Row) {
    && r.data.Document? && r.data.company == company
    && (q.status.None? || r.data.status == q.status.value) && (q.kind.None? || r.data.kind == q.kind.value)
    && (q.series.None? || r.data.series == q.series.value)
    && (q.from.None? || q.from.value <= r.at) && (q.to.None? || r.at <= q.to.value)
    && (start.None? || r.at < start.value.at || (r.at == start.value.at && r.id < start.value.id))
  }

  /** A page at a row that the query asks for itself, or at none. */
  lemma AskedDocumentMeans(table: seq<Row>, company: nat, q: DocumentQuery, start: Option<Row>, limit: nat)
    requires DistinctIds(table) && limit >= 1
    requires start.Some? ==> start.value in table && AskedDocument(company, q, None, start.value)
    ensures var page := PageById(table, (r: Row) => WantedDocument(company, q, r), IdOf(start), limit);
            && page.Some?
            && Lists(table, (r: Row) => AskedDocument(company, q, start, r), limit, page.value.items,
                     page.value.next.Some?)
            && (page.value.next.Some? ==> page.value.next.value == page.value.items[limit - 1].id)
  {
    var filter := (r: Row) => WantedDocument(company, q, r);
    IdPagesAgree(table, filter, start, limit);
    PageLists(table, filter, KeyOf(start), limit, (r: Row) => AskedDocument(company, q, start, r));
  }

  /** The cursor names a document of the company. */
  predicate OwnCursor(table: seq<Row>, company: nat, cursor: Option<nat>) {
    cursor.Some? ==>
      var row := RowWithId(table, cursor.value);
      row.Some? && row.value.data.Document? && row.value.data.company == company
  }

  /** The page at the cursor; nothing for a query that is refused. */
  method FindMany(table: seq<Row>, company: nat, q: DocumentQuery, cursor: Option<nat>) returns (page: Option<IdPage>)
    ensures var limit := if q.limit.Some? then q.limit.value else 20;
            && (page.Some? <==>
                  && 1 <= limit <= 100 && OwnCursor(table, company, cursor)
                  && (q.from.None? || q.to.None? || q.from.value <= q.to.value))
            && (page.Some? ==> page == PageById(table, (r: Row) => WantedDocument(company, q, r), cursor, limit))
  {
    var limit := if q.limit.Some? then q.limit.value else 20;
    if limit < 1 || limit > MAX_LIMIT { return None; }
    if q.from.Some? && q.to.Some? && q.from.value > q.to.value { return None; }
    var skip, start := 0, None;
    if cursor.Some? {
      start := RowWithId(table, cursor.value);
      if start.None? || !start.value.data.Document? || start.value.data.company != company { return None; }
      skip := 1;
    }
    var found := SortDesc(Select(table, (r: Row) => WantedDocument(company, q, r)));
    if start.Some? { found := Drop(Select(found, (r: Row) => !Precedes(r, start.value)), skip); }
    found := Take(found, limit + 1);
    var hasMore := |found| > limit;
    var records := if hasMore then found[..limit] else found;
    page := Some(IdPage(records, if hasMore then Some(records[|records| - 1].id) else None));
  }
}
