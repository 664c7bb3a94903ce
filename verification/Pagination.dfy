/** The cursor-paged domain list. A table is given as its rows in (created_at, id) order, which is what
    ORDER BY makes of it; SQLite's LIKE is a parameter. */
module Pagination {
  import opened Prelude
  import opened PathOrder

  datatype Key = Key(created: int, id: string)

  datatype Row = Row(key: Key, status: string, hostname: string)

  /** A cursor as it arrives: none, one this service encoded, or text it cannot decode. */
  datatype Cursor = NoCursor | At(key: Key) | Garbled

  datatype Request = Request(page: int, pageSize: int, cursor: Cursor, status: string, hostname: string)

  /** (created_at, id) < (created_at, id) as SQLite compares row values. */
  predicate KeyLess(a: Key, b: Key) {
    a.created < b.created || (a.created == b.created && LexLess(a.id, b.id))
  }

  lemma KeyOrder(a: Key, b: Key, c: Key)
    ensures !KeyLess(a, a)
    ensures KeyLess(a, b) ==> !KeyLess(b, a)
    ensures a == b || KeyLess(a, b) || KeyLess(b, a)
    ensures KeyLess(a, b) && KeyLess(b, c) ==> KeyLess(a, c)
    ensures KeyLess(a, b) ==> a.created <= b.created && (a.created == b.created ==> LexLess(a.id, b.id))
  {
    LexTotal(a.id, a.id);
    LexTotal(a.id, b.id);
    if LexLess(a.id, b.id) && LexLess(b.id, c.id) { LexTransitive(a.id, b.id, c.id); }
  }

  ghost predicate Ascending(rows: seq<Row>) {
    forall i, j :: 0 <= i < j < |rows| ==> KeyLess(rows[i].key, rows[j].key)
  }

  type Like = (string, string) -> bool

  predicate Wanted(like: Like, status: string, hostname: string, row: Row) {
    (status == "" || row.status == status) && (hostname == "" || like(row.hostname, "%" + hostname + "%"))
  }

  function Where(table: seq<Row>, like: Like, status: string, hostname: string): seq<Row> {
    if table == [] then []
    else
      (if Wanted(like, status, hostname, table[0]) then [table[0]] else [])
      + Where(table[1..], like, status, hostname)
  }

  function After(rows: seq<Row>, key: Key): seq<Row> {
    if rows == [] then []
    else (if KeyLess(key, rows[0].key) then [rows[0]] else []) + After(rows[1..], key)
  }

  /** What Paginate adds to the query. */
  datatype Paging = Paging(after: Option<Key>, offset: nat, limit: Option<nat>)

  /** scopes.Paginate. A cursor that does not decode drops the limit as well. */
  method Paginate(p: Request) returns (q: Paging)
    ensures q == PagingOf(p)
  {
    q := Paging(None, 0, None);
    if p.pageSize < 0 {
      return;
    }
    if p.cursor != NoCursor {
      if p.cursor.Garbled? {
        return;
      }
      q := q.(after := Some(p.cursor.key));
    } else if p.page > 0 && p.pageSize > 0 {
      q := q.(offset := (p.page - 1) * p.pageSize);
    }
    if p.pageSize > 0 {
      q := q.(limit := Some(p.pageSize));
    }
  }

  function PagingOf(p: Request): Paging {
    if p.pageSize < 0 || p.cursor.Garbled? then Paging(None, 0, None)
    else
      Paging(if p.cursor.At? then Some(p.cursor.key) else None,
             if p.cursor.NoCursor? && p.page > 0 && p.pageSize > 0 then (p.page - 1) * p.pageSize else 0,
             if p.pageSize > 0 then Some(p.pageSize) else None)
  }

  function Take(rows: seq<Row>, limit: Option<nat>): seq<Row> {
    if limit.Some? && limit.value < |rows| then rows[..limit.value] else rows
  }

  function Drop(rows: seq<Row>, n: nat): seq<Row> { if n < |rows| then rows[n..] else [] }

  function Execute(rows: seq<Row>, q: Paging): seq<Row> {
    var cut := if q.after.Some? then After(rows, q.after.value) else rows;
    Take(Drop(cut, q.offset), q.limit)
  }

  function Page(table: seq<Row>, like: Like, req: Request): seq<Row> {
    Execute(Where(table, like, req.status, req.hostname), PagingOf(req))
  }

  function NextCursor(rows: seq<Row>, pageSize: int): Cursor {
    if pageSize > 0 && |rows| == pageSize then At(rows[|rows| - 1].key) else NoCursor
  }

  /** repo.List. What a client may rely on: a page has no more rows than asked for, all of them wanted and
      after the cursor; a next cursor comes exactly with a full page and names its last row. */
  method List(table: seq<Row>, like: Like, req: Request) returns (domains: seq<Row>, nextCursor: Cursor)
    ensures domains == Page(table, like, req) && nextCursor == NextCursor(domains, req.pageSize)
    ensures req.pageSize > 0 && !req.cursor.Garbled? ==> |domains| <= req.pageSize
    ensures forall row :: row in domains ==>
              && row in table && (req.status == "" || row.status == req.status)
              && (req.hostname == "" || like(row.hostname, "%" + req.hostname + "%"))
    ensures req.cursor.At? && req.pageSize >= 0 ==> forall row :: row in domains ==> KeyLess(req.cursor.key, row.key)
    ensures nextCursor.At? <==> req.pageSize > 0 && |domains| == req.pageSize
    ensures nextCursor.At? ==> nextCursor.key == domains[|domains| - 1].key
  {
    PageRows(table, like, req);
    var rows := Where(table, like, req.status, req.hostname);
    var paging := Paginate(req);
    domains := Execute(rows, paging);
    nextCursor := NoCursor;
    if req.pageSize > 0 && |domains| == req.pageSize {
      var last := domains[|domains| - 1];
      nextCursor := At(last.key);
    }
  }

  // ---- selecting ---------------------------------------------------------------------------------

  lemma {:induction false} WhereMembers(table: seq<Row>, like: Like, status: string, hostname: string, row: Row)
    ensures row in Where(table, like, status, hostname) <==> row in table && Wanted(like, status, hostname, row)
  {
    if table != [] {
      WhereMembers(table[1..], like, status, hostname, row);
      assert table == [table[0]] + table[1..];
    }
  }

  lemma {:induction false} WhereAscending(table: seq<Row>, like: Like, status: string, hostname: string)
    requires Ascending(table)
    ensures Ascending(Where(table, like, status, hostname))
  {
    if table != [] {
      var rest := Where(table[1..], like, status, hostname);
      WhereAscending(table[1..], like, status, hostname);
      forall i | 0 <= i < |rest| ensures KeyLess(table[0].key, rest[i].key) {
        WhereMembers(table[1..], like, status, hostname, rest[i]);
        var k :| 0 <= k < |table[1..]| && table[1..][k] == rest[i];
        assert KeyLess(table[0].key, table[k + 1].key);
      }
    }
  }

  lemma {:induction false} AfterMembers(rows: seq<Row>, key: Key, row: Row)
    ensures row in After(rows, key) <==> row in rows && KeyLess(key, row.key)
  {
    if rows != [] {
      AfterMembers(rows[1..], key, row);
      assert rows == [rows[0]] + rows[1..];
    }
  }

  lemma {:induction false} AfterEverything(rows: seq<Row>, key: Key)
    requires forall i :: 0 <= i < |rows| ==> KeyLess(key, rows[i].key)
    ensures After(rows, key) == rows
  {
    if rows != [] { AfterEverything(rows[1..], key); }
  }

  /** In ascending rows, what comes after row i's key is what comes after row i. */
  lemma {:induction false} AfterRow(rows: seq<Row>, i: nat)
    requires Ascending(rows) && i < |rows|
    ensures After(rows, rows[i].key) == rows[i + 1..]
  {
    KeyOrder(rows[0].key, rows[i].key, rows[i].key);
    if i == 0 {
      AfterEverything(rows[1..], rows[0].key);
    } else {
      assert KeyLess(rows[0].key, rows[i].key);
      AfterRow(rows[1..], i - 1);
    }
  }

  lemma {:induction false} AfterAfter(rows: seq<Row>, a: Key, b: Key)
    requires KeyLess(a, b)
    ensures After(After(rows, a), b) == After(rows, b)
  {
    if rows != [] {
      AfterAfter(rows[1..], a, b);
      KeyOrder(a, b, rows[0].key);
      var rest := After(rows[1..], a);
      if KeyLess(a, rows[0].key) {
        assert ([rows[0]] + rest)[1..] == rest;
      } else {
        assert [] + rest == rest;
        assert After(rows, b) == [] + After(rows[1..], b);
      }
    }
  }

  lemma {:induction false} AfterAscending(rows: seq<Row>, key: Key)
    requires Ascending(rows)
    ensures Ascending(After(rows, key))
  {
    if rows != [] {
      var rest := After(rows[1..], key);
      AfterAscending(rows[1..], key);
      forall i | 0 <= i < |rest| ensures KeyLess(rows[0].key, rest[i].key) {
        AfterMembers(rows[1..], key, rest[i]);
        var k :| 0 <= k < |rows[1..]| && rows[1..][k] == rest[i];
        assert KeyLess(rows[0].key, rows[k + 1].key);
      }
    }
  }

  lemma PageRows(table: seq<Row>, like: Like, req: Request)
    ensures forall row :: row in Page(table, like, req) ==> row in table && Wanted(like, req.status, req.hostname, row)
    ensures req.cursor.At? && req.pageSize >= 0 ==>
              forall row :: row in Page(table, like, req) ==> KeyLess(req.cursor.key, row.key)
    ensures req.pageSize > 0 && !req.cursor.Garbled? ==> |Page(table, like, req)| <= req.pageSize
  {
    var rows := Where(table, like, req.status, req.hostname);
    var q := PagingOf(req);
    var cut := if q.after.Some? then After(rows, q.after.value) else rows;
    forall row | row in Page(table, like, req)
      ensures row in cut && row in table && Wanted(like, req.status, req.hostname, row)
      ensures q.after.Some? ==> KeyLess(q.after.value, row.key)
    {
      SliceMembers(cut, q.offset, q.limit, row);
      if q.after.Some? { AfterMembers(rows, q.after.value, row); }
      WhereMembers(table, like, req.status, req.hostname, row);
    }
  }

  lemma SliceMembers(rows: seq<Row>, n: nat, limit: Option<nat>, row: Row)
    ensures row in Take(Drop(rows, n), limit) ==> row in rows
  {
  }

  // ---- page numbers --------------------------------------------------------------------------------

  /** What is wanted of a table, in its order. */
  function Filtered(table: seq<Row>, like: Like, req: Request): seq<Row> {
    Where(table, like, req.status, req.hostname)
  }

  /** A request by page number. */
  predicate Numbered(req: Request) { req.cursor.NoCursor? && req.pageSize > 0 && req.page > 0 }

  /** How many rows k pages hold. */
  function Held(k: nat, pageSize: nat): nat { k * pageSize }

  /** Page k holds the wanted rows from (k - 1) * pageSize on, at most pageSize of them. */
  lemma NumberedPage(table: seq<Row>, like: Like, req: Request)
    requires Numbered(req)
    ensures var rows, page := Filtered(table, like, req), Page(table, like, req);
            var start := Held(req.page - 1, req.pageSize);
            && |page| == (if |rows| <= start then 0
                          else if |rows| - start < req.pageSize then |rows| - start else req.pageSize)
            && forall j :: 0 <= j < |page| ==> start + j < |rows| && page[j] == rows[start + j]
  {
  }

  /** Wanted row i stands on page i / pageSize + 1, at position i % pageSize. */
  lemma RowOnItsPage(table: seq<Row>, like: Like, req: Request, i: nat)
    requires Numbered(req) && i < |Filtered(table, like, req)| && req.page == i / req.pageSize + 1
    ensures i % req.pageSize < |Page(table, like, req)|
    ensures Page(table, like, req)[i % req.pageSize] == Filtered(table, like, req)[i]
  {
    NumberedPage(table, like, req);
    Divided(i, req.pageSize);
  }

  lemma Divided(i: nat, d: nat)
    requires d > 0
    ensures i == (i / d) * d + i % d && i % d < d && i / d >= 0
  {
  }

  /** It is on no other page. */
  lemma RowOnNoOtherPage(table: seq<Row>, like: Like, req: Request, i: nat)
    requires Ascending(table) && Numbered(req) && i < |Filtered(table, like, req)| && req.page != i / req.pageSize + 1
    ensures Filtered(table, like, req)[i] !in Page(table, like, req)
  {
    var rows, page := Filtered(table, like, req), Page(table, like, req);
    var start := (req.page - 1) * req.pageSize;
    NumberedPage(table, like, req);
    WhereAscending(table, like, req.status, req.hostname);
    forall j | 0 <= j < |page| ensures page[j] != rows[i] {
      OtherPage(i, req.page, req.pageSize, j);
      KeyOrder(rows[i].key, rows[start + j].key, rows[i].key);
    }
  }

  lemma OtherPage(i: nat, page: int, pageSize: int, j: nat)
    requires pageSize > 0 && page > 0 && j < pageSize && page != i / pageSize + 1
    ensures (page - 1) * pageSize + j != i
  {
    if (page - 1) * pageSize + j == i { SameQuotient(page - 1, pageSize, j); }
  }

  lemma SameQuotient(q: nat, d: int, j: nat)
    requires d > 0 && j < d
    ensures (q * d + j) / d == q
  {
    var x := q * d + j;
    Divided(x, d);
    if x / d > q {
      AtLeastOnce(x / d - q, d);
    } else if x / d < q {
      AtLeastOnce(q - x / d, d);
    }
  }

  lemma AtLeastOnce(k: int, d: int)
    requires k >= 1 && d > 0
    ensures k * d >= d
  {
    assert k * d == (k - 1) * d + d;
  }

  /** The first k pages, one after the other. */
  function Pages(table: seq<Row>, like: Like, req: Request, k: nat): seq<Row> {
    if k == 0 then [] else Pages(table, like, req, k - 1) + Page(table, like, req.(page := k))
  }

  /** They are the wanted rows in order, as many as k pages hold, and all of them when that is enough. */
  lemma {:induction false} PagesAreThePrefix(table: seq<Row>, like: Like, req: Request, k: nat)
    requires req.cursor.NoCursor? && req.pageSize > 0
    ensures Pages(table, like, req, k) == Take(Filtered(table, like, req), Some(Held(k, req.pageSize)))
  {
    if k == 0 {
      NoPage(Filtered(table, like, req), req.pageSize);
    } else {
      PagesAreThePrefix(table, like, req, k - 1);
      NextPage(table, like, req, k);
    }
  }

  lemma NoPage(rows: seq<Row>, d: nat)
    ensures Take(rows, Some(Held(0, d))) == []
  {
  }

  lemma NextPage(table: seq<Row>, like: Like, req: Request, k: nat)
    requires req.cursor.NoCursor? && req.pageSize > 0 && k > 0
    ensures Take(Filtered(table, like, req), Some(Held(k - 1, req.pageSize))) + Page(table, like, req.(page := k))
         == Take(Filtered(table, like, req), Some(Held(k, req.pageSize)))
  {
    NumberedPage(table, like, req.(page := k));
    OneMore(k, req.pageSize);
    NextSlice(Filtered(table, like, req), Held(k - 1, req.pageSize), req.pageSize, Page(table, like, req.(page := k)));
  }

  lemma OneMore(k: nat, d: nat)
    requires k > 0
    ensures Held(k, d) == Held(k - 1, d) + d
  {
  }

  lemma NextSlice(rows: seq<Row>, start: nat, size: nat, page: seq<Row>)
    requires |page| == if |rows| <= start then 0 else if |rows| - start < size then |rows| - start else size
    requires forall j :: 0 <= j < |page| ==> start + j < |rows| && page[j] == rows[start + j]
    ensures (if |rows| <= start then rows else rows[..start]) + page
         == if |rows| <= start + size then rows else rows[..start + size]
  {
  }

  // ---- following cursors over a fixed table --------------------------------------------------------

  /** A request for the first page of a walk: no cursor, no page number, a positive size. */
  predicate FirstRequest(req: Request) { req.cursor.NoCursor? && req.page <= 1 && req.pageSize > 0 }

  function Remaining(table: seq<Row>, like: Like, req: Request): seq<Row> {
    var rows := Where(table, like, req.status, req.hostname);
    if req.cursor.At? then After(rows, req.cursor.key) else rows
  }

  lemma PageIsPrefix(table: seq<Row>, like: Like, req: Request)
    requires req.pageSize > 0 && (FirstRequest(req) || req.cursor.At?)
    ensures Page(table, like, req) == Take(Remaining(table, like, req), Some(req.pageSize))
  {
    var rest := Remaining(table, like, req);
    NoOffset(req);
    assert Drop(rest, 0) == rest;
  }

  lemma NoOffset(req: Request)
    requires req.pageSize > 0 && (FirstRequest(req) || req.cursor.At?)
    ensures PagingOf(req) == Paging(if req.cursor.At? then Some(req.cursor.key) else None, 0, Some(req.pageSize))
  {
    if req.cursor.NoCursor? && req.page > 0 {
      assert req.page == 1;
    }
  }

  lemma RemainingShrinks(table: seq<Row>, like: Like, req: Request)
    requires Ascending(table) && req.pageSize > 0 && (FirstRequest(req) || req.cursor.At?)
    requires |Page(table, like, req)| == req.pageSize
    ensures var next := req.(cursor := NextCursor(Page(table, like, req), req.pageSize));
            Remaining(table, like, next) == Remaining(table, like, req)[req.pageSize..]
  {
    PageIsPrefix(table, like, req);
    var rows := Where(table, like, req.status, req.hostname);
    var rest := Remaining(table, like, req);
    var last := rest[req.pageSize - 1];
    assert Page(table, like, req)[req.pageSize - 1] == last;
    WhereAscending(table, like, req.status, req.hostname);
    if req.cursor.At? {
      AfterAscending(rows, req.cursor.key);
      AfterMembers(rows, req.cursor.key, last);
      AfterAfter(rows, req.cursor.key, last.key);
    }
    AfterRow(rest, req.pageSize - 1);
  }

  /** What a client gets that follows next-cursors until there is none. */
  function Walk(table: seq<Row>, like: Like, req: Request): seq<Row>
    requires Ascending(table) && req.pageSize > 0 && (FirstRequest(req) || req.cursor.At?)
    decreases |Remaining(table, like, req)|
  {
    var page := Page(table, like, req);
    var next := NextCursor(page, req.pageSize);
    if next.NoCursor? then page
    else
      RemainingShrinks(table, like, req);
      PageIsPrefix(table, like, req);
      page + Walk(table, like, req.(cursor := next))
  }

  lemma {:induction false} WalkIsRemaining(table: seq<Row>, like: Like, req: Request)
    requires Ascending(table) && req.pageSize > 0 && (FirstRequest(req) || req.cursor.At?)
    ensures Walk(table, like, req) == Remaining(table, like, req)
    decreases |Remaining(table, like, req)|
  {
    var page := Page(table, like, req);
    PageIsPrefix(table, like, req);
    if |page| == req.pageSize {
      RemainingShrinks(table, like, req);
      WalkIsRemaining(table, like, req.(cursor := NextCursor(page, req.pageSize)));
      FullPage(Remaining(table, like, req), page, req.pageSize);
    }
  }

  lemma FullPage(rest: seq<Row>, page: seq<Row>, size: nat)
    requires page == Take(rest, Some(size)) && |page| == size
    ensures size <= |rest| && page + rest[size..] == rest
  {
  }

  /** Following the cursors of an unchanging table ends, and yields the whole filtered list in order, no
      gap and no repeat, for every positive page size. */
  lemma WalkListsEverything(table: seq<Row>, like: Like, req: Request)
    requires Ascending(table) && FirstRequest(req)
    ensures Walk(table, like, req) == Where(table, like, req.status, req.hostname)
    ensures Ascending(Walk(table, like, req))
    ensures forall row :: row in Walk(table, like, req) <==>
              && row in table && (req.status == "" || row.status == req.status)
              && (req.hostname == "" || like(row.hostname, "%" + req.hostname + "%"))
  {
    WalkIsRemaining(table, like, req);
    WhereAscending(table, like, req.status, req.hostname);
    forall row ensures row in Where(table, like, req.status, req.hostname) <==>
                       row in table && Wanted(like, req.status, req.hostname, row)
    {
      WhereMembers(table, like, req.status, req.hostname, row);
    }
  }

  /** A cursor that does not decode loses the limit: the answer is everything, whatever the page size. */
  lemma GarbledCursorListsAll(table: seq<Row>, like: Like, req: Request)
    requires req.cursor.Garbled?
    ensures Page(table, like, req) == Where(table, like, req.status, req.hostname)
  {
    var rows := Where(table, like, req.status, req.hostname);
    assert Drop(rows, 0) == rows;
  }

  // ---- following cursors while rows come and go ------------------------------------------------------

  /** One table per request. */
  function WalkOver(tables: seq<seq<Row>>, like: Like, req: Request): seq<Row>
    decreases |tables|
  {
    if tables == [] then []
    else
      var page := Page(tables[0], like, req);
      var next := NextCursor(page, req.pageSize);
      if next.NoCursor? then page else page + WalkOver(tables[1..], like, req.(cursor := next))
  }

  /** The walk came to a page without a next-cursor. */
  predicate WalkEnds(tables: seq<seq<Row>>, like: Like, req: Request)
    decreases |tables|
  {
    tables != [] &&
    var next := NextCursor(Page(tables[0], like, req), req.pageSize);
    (next.NoCursor? || WalkEnds(tables[1..], like, req.(cursor := next)))
  }

  ghost predicate AllAscending(tables: seq<seq<Row>>) {
    forall t :: t in tables ==> Ascending(t)
  }

  lemma PageFacts(table: seq<Row>, like: Like, req: Request)
    requires Ascending(table) && req.pageSize > 0 && (FirstRequest(req) || req.cursor.At?)
    ensures Ascending(Page(table, like, req))
    ensures req.cursor.At? ==> forall row :: row in Page(table, like, req) ==> KeyLess(req.cursor.key, row.key)
  {
    PageIsPrefix(table, like, req);
    var rows := Where(table, like, req.status, req.hostname);
    WhereAscending(table, like, req.status, req.hostname);
    if req.cursor.At? {
      AfterAscending(rows, req.cursor.key);
      forall row | row in Page(table, like, req) ensures KeyLess(req.cursor.key, row.key) {
        assert row in After(rows, req.cursor.key);
        AfterMembers(rows, req.cursor.key, row);
      }
    }
  }

  /** A row that is wanted and still ahead is on this page or ahead of the next cursor. */
  lemma AheadOrHere(table: seq<Row>, like: Like, req: Request, row: Row)
    requires Ascending(table) && req.pageSize > 0 && (FirstRequest(req) || req.cursor.At?)
    requires row in table && Wanted(like, req.status, req.hostname, row)
    requires req.cursor.At? ==> KeyLess(req.cursor.key, row.key)
    ensures var page := Page(table, like, req);
            var next := NextCursor(page, req.pageSize);
            row in page || (next.At? && KeyLess(next.key, row.key))
  {
    PageIsPrefix(table, like, req);
    StillAhead(table, like, req, row);
    FirstPart(Remaining(table, like, req), Page(table, like, req), req.pageSize, row);
  }

  lemma StillAhead(table: seq<Row>, like: Like, req: Request, row: Row)
    requires Ascending(table) && row in table && Wanted(like, req.status, req.hostname, row)
    requires req.cursor.At? ==> KeyLess(req.cursor.key, row.key)
    ensures row in Remaining(table, like, req) && Ascending(Remaining(table, like, req))
  {
    var rows := Where(table, like, req.status, req.hostname);
    WhereMembers(table, like, req.status, req.hostname, row);
    WhereAscending(table, like, req.status, req.hostname);
    if req.cursor.At? {
      AfterMembers(rows, req.cursor.key, row);
      AfterAscending(rows, req.cursor.key);
    }
  }

  lemma FirstPart(rest: seq<Row>, page: seq<Row>, pageSize: int, row: Row)
    requires Ascending(rest) && row in rest && pageSize > 0 && page == Take(rest, Some(pageSize))
    ensures row in page || (NextCursor(page, pageSize).At? && KeyLess(NextCursor(page, pageSize).key, row.key))
  {
    var k :| 0 <= k < |rest| && rest[k] == row;
    if k < |page| {
      assert page[k] == row;
    } else {
      assert page[|page| - 1] == rest[pageSize - 1];
    }
  }

  lemma AscendingConcat(a: seq<Row>, b: seq<Row>)
    requires Ascending(a) && Ascending(b) && a != []
    requires forall row :: row in b ==> KeyLess(a[|a| - 1].key, row.key)
    ensures Ascending(a + b)
  {
    forall i, j | 0 <= i < j < |a + b| ensures KeyLess((a + b)[i].key, (a + b)[j].key) {
      if i < |a| <= j {
        assert (a + b)[j] in b;
        KeyOrder(a[i].key, a[|a| - 1].key, (a + b)[j].key);
      }
    }
  }

  /** Whatever is inserted, deleted or changed between the requests, the walk lists rows in strictly
      ascending order, so none twice. */
  lemma {:induction false} WalkOverAscends(tables: seq<seq<Row>>, like: Like, req: Request)
    requires AllAscending(tables) && req.pageSize > 0 && (FirstRequest(req) || req.cursor.At?)
    ensures Ascending(WalkOver(tables, like, req))
    ensures forall i, j :: 0 <= i < j < |WalkOver(tables, like, req)| ==>
              WalkOver(tables, like, req)[i].key.created <= WalkOver(tables, like, req)[j].key.created
    ensures req.cursor.At? ==> forall row :: row in WalkOver(tables, like, req) ==> KeyLess(req.cursor.key, row.key)
    decreases |tables|
  {
    if tables != [] {
      var page := Page(tables[0], like, req);
      var next := NextCursor(page, req.pageSize);
      PageFacts(tables[0], like, req);
      if next.At? {
        var rest := WalkOver(tables[1..], like, req.(cursor := next));
        WalkOverAscends(tables[1..], like, req.(cursor := next));
        AscendingConcat(page, rest);
        if req.cursor.At? {
          forall row: Row | row in page + rest ensures KeyLess(req.cursor.key, row.key) {
            KeyOrder(req.cursor.key, next.key, row.key);
          }
        }
      }
      OldestFirst(WalkOver(tables, like, req));
    }
  }

  lemma OldestFirst(rows: seq<Row>)
    requires Ascending(rows)
    ensures forall i, j :: 0 <= i < j < |rows| ==> rows[i].key.created <= rows[j].key.created
  {
    forall i, j | 0 <= i < j < |rows| ensures rows[i].key.created <= rows[j].key.created {
      KeyOrder(rows[i].key, rows[j].key, rows[j].key);
    }
  }

  /** The table holds a wanted row with this key. */
  ghost predicate HasWanted(table: seq<Row>, like: Like, status: string, hostname: string, key: Key) {
    exists row :: row in table && row.key == key && Wanted(like, status, hostname, row)
  }

  lemma {:induction false} WalkOverFinds(tables: seq<seq<Row>>, like: Like, req: Request, key: Key) returns (row: Row)
    requires AllAscending(tables) && req.pageSize > 0 && (FirstRequest(req) || req.cursor.At?)
    requires WalkEnds(tables, like, req)
    requires forall t :: t in tables ==> HasWanted(t, like, req.status, req.hostname, key)
    requires req.cursor.At? ==> KeyLess(req.cursor.key, key)
    ensures row in WalkOver(tables, like, req) && row.key == key
    decreases |tables|
  {
    var page := Page(tables[0], like, req);
    var next := NextCursor(page, req.pageSize);
    assert HasWanted(tables[0], like, req.status, req.hostname, key);
    row :| row in tables[0] && row.key == key && Wanted(like, req.status, req.hostname, row);
    AheadOrHere(tables[0], like, req, row);
    if next.At? && row !in page {
      row := WalkOverFinds(tables[1..], like, req.(cursor := next), key);
    }
  }

  function KeyOf(row: Row): Key { row.key }

  /** A row that is there and wanted throughout a completed walk is listed exactly once, whatever else of it
      is rewritten between the requests and however the rest of the table changes: rows are told apart by
      their key. */
  lemma StableRowsAppearOnce(tables: seq<seq<Row>>, like: Like, req: Request, key: Key)
    requires AllAscending(tables) && FirstRequest(req) && WalkEnds(tables, like, req)
    requires forall t :: t in tables ==> HasWanted(t, like, req.status, req.hostname, key)
    ensures multiset(MapSeq(KeyOf, WalkOver(tables, like, req)))[key] == 1
  {
    var row := WalkOverFinds(tables, like, req, key);
    WalkOverAscends(tables, like, req);
    var rows := WalkOver(tables, like, req);
    AscendingKeys(rows);
    var k :| 0 <= k < |rows| && rows[k] == row;
    assert MapSeq(KeyOf, rows)[k] == key;
    assert key in multiset(MapSeq(KeyOf, rows));
  }

  lemma AscendingKeys(rows: seq<Row>)
    requires Ascending(rows)
    ensures forall key :: multiset(MapSeq(KeyOf, rows))[key] <= 1
  {
    var keys := MapSeq(KeyOf, rows);
    forall i, j | 0 <= i < j < |keys| ensures keys[i] != keys[j] {
      KeyOrder(rows[i].key, rows[j].key, rows[j].key);
    }
    DistinctMultiset(keys);
  }
}
