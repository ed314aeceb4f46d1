// Keyset pagination over the movement ledger: each page is a query of its own,
// and rows may be inserted between two pages.
module Pagination {
  import opened Basics
  import opened Tables

  /** The ordering key of a stored movement. */
  datatype Key = Key(createdAt: int, id: nat)

  datatype Row = Row(key: Key, movement: Movement)

  /** The filters of a listing request. */
  datatype Query = Query(business: BusinessId, product: Option<ProductId>, kind: Option<MovementKind>)

  predicate Below(a: Key, b: Key) {
    a.createdAt < b.createdAt || (a.createdAt == b.createdAt && a.id < b.id)
  }

  predicate Matches(q: Query, row: Row) {
    && row.movement.business == q.business
    && (q.product.Some? ==> row.movement.product == q.product.value)
    && (q.kind.Some? ==> row.movement.kind == q.kind.value)
  }

  predicate After(cursor: Option<Key>, row: Row) {
    cursor.Some? ==> Below(row.key, cursor.value)
  }

  /** The rows of a page query before it is cut to size. */
  function Selected(q: Query, cursor: Option<Key>): Row -> bool {
    (row: Row) => Matches(q, row) && After(cursor, row)
  }

  /** The table order: newest first, by creation time and then by key. */
  function Insert(row: Row, rows: seq<Row>): seq<Row> {
    if rows == [] then [row]
    else if Below(row.key, rows[0].key) then [rows[0]] + Insert(row, rows[1..])
    else [row] + rows
  }

  function Sort(rows: seq<Row>): seq<Row> {
    if rows == [] then [] else Insert(rows[|rows| - 1], Sort(rows[..|rows| - 1]))
  }

  /** The filtered and sorted list that the pages must add up to. */
  function Listing(table: seq<Row>, q: Query, cursor: Option<Key>): seq<Row> {
    Sort(Where(table, Selected(q, cursor)))
  }

  function Take<T>(rows: seq<T>, n: nat): seq<T> {
    if |rows| <= n then rows else rows[..n]
  }

  datatype Page = Page(items: seq<Row>, next: Option<Key>)

  /** One request: one row more than asked for tells whether there is a next page. */
  function GetPage(table: seq<Row>, q: Query, cursor: Option<Key>, limit: nat): Page {
    var page := Take(Listing(table, q, cursor), limit + 1);
    var items := Take(page, limit);
    Page(items, if |page| > limit && items != [] then Some(items[|items| - 1].key) else None)
  }

  // Sorted lists.

  ghost predicate Descending(rows: seq<Row>) {
    forall i, j :: 0 <= i < j < |rows| ==> Below(rows[j].key, rows[i].key)
  }

  /** The primary key: two rows never share their id. */
  ghost predicate DistinctIds(rows: seq<Row>) {
    forall i, j :: 0 <= i < j < |rows| ==> rows[i].key.id != rows[j].key.id
  }

  lemma {:induction false} InsertMembers(row: Row, rows: seq<Row>)
    ensures forall x :: x in Insert(row, rows) <==> x == row || x in rows
  {
    if rows != [] && Below(row.key, rows[0].key) {
      InsertMembers(row, rows[1..]);
      assert rows == [rows[0]] + rows[1..];
    }
  }

  lemma {:induction false} InsertDescending(row: Row, rows: seq<Row>)
    requires Descending(rows) && forall x :: x in rows ==> x.key != row.key
    ensures Descending(Insert(row, rows))
  {
    if rows != [] {
      assert rows[0] in rows;
      if Below(row.key, rows[0].key) {
        InsertDescending(row, rows[1..]);
        InsertMembers(row, rows[1..]);
        var tail := Insert(row, rows[1..]);
        forall j | 0 <= j < |tail| ensures Below(tail[j].key, rows[0].key) {
          assert tail[j] in tail;
        }
      } else {
        forall j | 0 <= j < |rows| ensures Below(rows[j].key, row.key) {
          assert rows[j] in rows;
        }
      }
    }
  }

  lemma {:induction false} SortMembers(rows: seq<Row>)
    ensures forall x :: x in Sort(rows) <==> x in rows
  {
    if rows != [] {
      var n := |rows| - 1;
      SortMembers(rows[..n]);
      InsertMembers(rows[n], Sort(rows[..n]));
      assert rows == rows[..n] + [rows[n]];
    }
  }

  lemma {:induction false} SortDescending(rows: seq<Row>)
    requires DistinctIds(rows)
    ensures Descending(Sort(rows))
  {
    if rows != [] {
      var n := |rows| - 1;
      SortDescending(rows[..n]);
      SortMembers(rows[..n]);
      forall x | x in Sort(rows[..n]) ensures x.key != rows[n].key {
        assert x in rows[..n];
      }
      InsertDescending(rows[n], Sort(rows[..n]));
    }
  }

  lemma {:induction false} WhereDistinct(rows: seq<Row>, p: Row -> bool)
    requires DistinctIds(rows)
    ensures DistinctIds(Where(rows, p))
  {
    if rows != [] {
      var n := |rows| - 1;
      WhereDistinct(rows[..n], p);
      WhereMember(rows[..n], p);
      var kept := Where(rows[..n], p);
      forall i | 0 <= i < |kept| ensures kept[i].key.id != rows[n].key.id {
        assert kept[i] in kept;
        assert kept[i] in rows[..n];
      }
    }
  }

  /** The listing holds exactly the selected rows, newest first. */
  lemma ListingIsExact(table: seq<Row>, q: Query, cursor: Option<Key>)
    requires DistinctIds(table)
    ensures Descending(Listing(table, q, cursor))
    ensures forall x :: x in Listing(table, q, cursor) <==> x in table && Matches(q, x) && After(cursor, x)
  {
    WhereDistinct(table, Selected(q, cursor));
    WhereMember(table, Selected(q, cursor));
    SortDescending(Where(table, Selected(q, cursor)));
    SortMembers(Where(table, Selected(q, cursor)));
  }

  /** A page is the first part of the listing; with a next cursor the rest lies below it. */
  lemma PageIsPrefix(table: seq<Row>, q: Query, cursor: Option<Key>, limit: nat)
    requires DistinctIds(table) && limit >= 1
    ensures var all := Listing(table, q, cursor);
            var page := GetPage(table, q, cursor, limit);
            && page.items == Take(all, limit)
            && (page.next.None? ==> page.items == all)
            && (page.next.Some? ==>
                  && |all| > limit && |page.items| == limit
                  && page.next == Some(all[limit - 1].key)
                  && (forall i :: limit <= i < |all| ==> Below(all[i].key, page.next.value))
                  && (forall i :: 0 <= i < limit ==> !Below(all[i].key, page.next.value)))
  {
    ListingIsExact(table, q, cursor);
  }

  // Following the cursor while rows are inserted.

  /** The pages read from one table state after the other. */
  function Walk(tables: seq<seq<Row>>, q: Query, cursor: Option<Key>, limit: nat): seq<Row> {
    if tables == [] then []
    else
      var page := GetPage(tables[0], q, cursor, limit);
      if page.next.None? then page.items else page.items + Walk(tables[1..], q, page.next, limit)
  }

  /** The walk gets to a page without a next cursor. */
  predicate Finishes(tables: seq<seq<Row>>, q: Query, cursor: Option<Key>, limit: nat) {
    tables != []
    && var page := GetPage(tables[0], q, cursor, limit);
       page.next.None? || Finishes(tables[1..], q, page.next, limit)
  }

  ghost predicate Included(a: seq<Row>, b: seq<Row>) {
    forall x :: x in a ==> x in b
  }

  /** Rows are only ever inserted between two reads, under keys of their own. */
  ghost predicate OnlyInserts(tables: seq<seq<Row>>) {
    && (forall k :: 0 <= k < |tables| ==> DistinctIds(tables[k]))
    && (forall j, k :: 0 <= j <= k < |tables| ==> Included(tables[j], tables[k]))
  }

  lemma PageRows(table: seq<Row>, q: Query, cursor: Option<Key>, limit: nat)
    requires DistinctIds(table) && limit >= 1
    ensures var page := GetPage(table, q, cursor, limit);
            && Descending(page.items)
            && (forall x :: x in page.items ==> Matches(q, x) && After(cursor, x))
            && (page.next.Some? ==> page.items != [] && page.next == Some(page.items[|page.items| - 1].key))
  {
    ListingIsExact(table, q, cursor);
    PageIsPrefix(table, q, cursor, limit);
    var all := Listing(table, q, cursor);
    forall x | x in GetPage(table, q, cursor, limit).items ensures x in all {
    }
  }

  /** All rows of the walk lie below its cursor and match, and they come in strictly descending order. */
  lemma {:induction false} WalkDescends(tables: seq<seq<Row>>, q: Query, cursor: Option<Key>, limit: nat)
    requires OnlyInserts(tables) && limit >= 1
    ensures Descending(Walk(tables, q, cursor, limit))
    ensures forall x :: x in Walk(tables, q, cursor, limit) ==> Matches(q, x) && After(cursor, x)
    decreases |tables|
  {
    if tables != [] {
      PageRows(tables[0], q, cursor, limit);
      var page := GetPage(tables[0], q, cursor, limit);
      if page.next.Some? {
        OnlyInsertsTail(tables);
        WalkDescends(tables[1..], q, page.next, limit);
        JoinPages(page.items, Walk(tables[1..], q, page.next, limit), page.next.value, cursor);
      }
    }
  }

  lemma OnlyInsertsTail(tables: seq<seq<Row>>)
    requires OnlyInserts(tables) && tables != []
    ensures OnlyInserts(tables[1..])
  {
    var tail := tables[1..];
    assert forall k :: 0 <= k < |tail| ==> tail[k] == tables[k + 1];
  }

  /** A descending page that ends at a key, followed by descending rows below that key. */
  lemma JoinPages(items: seq<Row>, rest: seq<Row>, key: Key, cursor: Option<Key>)
    requires Descending(items) && Descending(rest) && items != [] && items[|items| - 1].key == key
    requires forall x :: x in items ==> After(cursor, x)
    requires forall x :: x in rest ==> Below(x.key, key)
    ensures Descending(items + rest)
    ensures forall x :: x in rest ==> After(cursor, x)
  {
    var last := items[|items| - 1];
    assert last in items;
    forall i, j | 0 <= i < |items| && 0 <= j < |rest| ensures Below(rest[j].key, items[i].key) {
      assert rest[j] in rest;
    }
  }

  /** Every matching row that is there at the first read, below the cursor, is met by the walk. */
  lemma {:induction false} WalkMeets(tables: seq<seq<Row>>, q: Query, cursor: Option<Key>, limit: nat, x: Row)
    requires OnlyInserts(tables) && limit >= 1 && Finishes(tables, q, cursor, limit)
    requires x in tables[0] && Matches(q, x) && After(cursor, x)
    ensures x in Walk(tables, q, cursor, limit)
    decreases |tables|
  {
    ListingIsExact(tables[0], q, cursor);
    PageIsPrefix(tables[0], q, cursor, limit);
    var page := GetPage(tables[0], q, cursor, limit);
    var all := Listing(tables[0], q, cursor);
    var i :| 0 <= i < |all| && all[i] == x;
    if i < |page.items| {
      assert page.items[i] == x;
    } else {
      assert Below(x.key, page.next.value);
      OnlyInsertsTail(tables);
      assert Included(tables[0], tables[1]) && tables[1] == tables[1..][0];
      WalkMeets(tables[1..], q, page.next, limit, x);
    }
  }

  /** Whatever is inserted between the page reads, following the cursor to its end yields every
      matching row of the first read exactly once, nothing twice, newest first. */
  lemma KeysetTraversal(tables: seq<seq<Row>>, q: Query, limit: nat)
    requires OnlyInserts(tables) && limit >= 1 && Finishes(tables, q, None, limit)
    ensures var walk := Walk(tables, q, None, limit);
            && NewestFirst(walk)
            && (forall i, j :: 0 <= i < j < |walk| ==> walk[i] != walk[j])
            && (forall x :: x in tables[0] && Asked(q, x.movement) ==> x in walk)
            && (forall x :: x in walk ==> Asked(q, x.movement))
  {
    WalkDescends(tables, q, None, limit);
    forall x | x in tables[0] && Matches(q, x) ensures x in Walk(tables, q, None, limit) {
      WalkMeets(tables, q, None, limit, x);
    }
  }

  /** The rows a request asks for: of its business, and of the product and the type it names. */
  predicate Asked(q: Query, m: Movement) {
    && m.business == q.business
    && (q.product == None || q.product == Some(m.product)) && (q.kind == None || q.kind == Some(m.kind))
  }

  /** Strictly later creation times first, and among equal ones strictly larger keys first. */
  ghost predicate NewestFirst(rows: seq<Row>) {
    forall i, j :: 0 <= i < j < |rows| ==>
      || rows[i].key.createdAt > rows[j].key.createdAt
      || (rows[i].key.createdAt == rows[j].key.createdAt && rows[i].key.id > rows[j].key.id)
  }

  /** The whole listing of a request: exactly the rows it asks for, newest first. */
  lemma ListingWritten(table: seq<Row>, q: Query)
    requires DistinctIds(table)
    ensures NewestFirst(Listing(table, q, None))
    ensures forall x :: x in Listing(table, q, None) <==> x in table && Asked(q, x.movement)
  {
    ListingIsExact(table, q, None);
  }

  // A fixed table.

  /** Two descending lists with the same rows are the same list. */
  lemma {:induction false} DescendingUnique(a: seq<Row>, b: seq<Row>)
    requires Descending(a) && Descending(b)
    requires forall x :: x in a <==> x in b
    ensures a == b
  {
    if a == [] {
      assert forall i :: 0 <= i < |b| ==> b[i] in b;
    } else {
      assert a[0] in a && a[0] in b;
      var i :| 0 <= i < |b| && b[i] == a[0];
      assert b[0] in b && b[0] in a;
      var j :| 0 <= j < |a| && a[j] == b[0];
      assert a[0] == b[0];
      TailMembers(a, b);
      DescendingUnique(a[1..], b[1..]);
      assert a == [a[0]] + a[1..] && b == [b[0]] + b[1..];
    }
  }

  lemma TailMembers(a: seq<Row>, b: seq<Row>)
    requires Descending(a) && Descending(b) && a != [] && b != [] && a[0] == b[0]
    requires forall x :: x in a <==> x in b
    ensures forall x :: x in a[1..] <==> x in b[1..]
  {
    forall x | x in a[1..] ensures x in b[1..] {
      var i :| 1 <= i < |a| && a[i] == x;
      assert x in b;
    }
    forall x | x in b[1..] ensures x in a[1..] {
      var i :| 1 <= i < |b| && b[i] == x;
      assert x in a;
    }
  }

  /** On a fixed table the next page query lists exactly the rows after the page. */
  lemma NextListing(table: seq<Row>, q: Query, cursor: Option<Key>, limit: nat)
    requires DistinctIds(table) && limit >= 1
    requires GetPage(table, q, cursor, limit).next.Some?
    ensures var next := GetPage(table, q, cursor, limit).next;
            Listing(table, q, next) == Listing(table, q, cursor)[limit..]
  {
    var all := Listing(table, q, cursor);
    var next := GetPage(table, q, cursor, limit).next;
    ListingIsExact(table, q, cursor);
    ListingIsExact(table, q, next);
    PageIsPrefix(table, q, cursor, limit);
    assert all[limit - 1] in all;
    forall x ensures x in Listing(table, q, next) <==> x in all[limit..] {
      if x in Listing(table, q, next) {
        assert After(cursor, x);
        var i :| 0 <= i < |all| && all[i] == x;
        assert i >= limit;
      }
      if x in all[limit..] {
        var i :| limit <= i < |all| && all[i] == x;
        assert x in all;
      }
    }
    DescendingUnique(Listing(table, q, next), all[limit..]);
  }

  /** The number of requests for n rows. */
  function Requests(n: nat, limit: nat): nat
    requires limit >= 1
  {
    if n <= limit then 1 else 1 + Requests(n - limit, limit)
  }

  lemma {:induction false} RequestsIsCeiling(n: nat, limit: nat)
    requires limit >= 1
    ensures var r := Requests(n, limit);
            n <= limit * r && (r == 1 || limit * (r - 1) < n)
  {
    if n > limit {
      RequestsIsCeiling(n - limit, limit);
      var r := Requests(n - limit, limit);
      assert limit * (r + 1) == limit * r + limit;
      assert limit * r == limit * (r - 1) + limit;
    }
  }

  /** The two outcomes of one page read on a fixed table. */
  lemma PageStep(table: seq<Row>, q: Query, cursor: Option<Key>, limit: nat)
    requires DistinctIds(table) && limit >= 1
    ensures var all := Listing(table, q, cursor);
            var page := GetPage(table, q, cursor, limit);
            if |all| <= limit then page.next.None? && page.items == all
            else page.next.Some? && page.items + Listing(table, q, page.next) == all
                 && |Listing(table, q, page.next)| == |all| - limit
  {
    PageIsPrefix(table, q, cursor, limit);
    var all := Listing(table, q, cursor);
    if |all| > limit {
      NextListing(table, q, cursor, limit);
      assert all == all[..limit] + all[limit..];
    }
  }

  /** The walk over these reads ends just when they reach the page count, and then it has met
      exactly the rows given. */
  ghost predicate WalksExactly(tables: seq<seq<Row>>, q: Query, cursor: Option<Key>, limit: nat, all: seq<Row>)
    requires limit >= 1
  {
    && (Finishes(tables, q, cursor, limit) <==> |tables| >= Requests(|all|, limit))
    && (|tables| >= Requests(|all|, limit) ==> Walk(tables, q, cursor, limit) == all)
  }

  lemma NoReads(q: Query, cursor: Option<Key>, limit: nat, all: seq<Row>)
    requires limit >= 1
    ensures WalksExactly([], q, cursor, limit, all)
  {
  }

  lemma LastPage(tables: seq<seq<Row>>, q: Query, cursor: Option<Key>, limit: nat, all: seq<Row>)
    requires limit >= 1 && tables != [] && |all| <= limit
    requires GetPage(tables[0], q, cursor, limit) == Page(all, None)
    ensures WalksExactly(tables, q, cursor, limit, all)
  {
  }

  lemma InnerPage(tables: seq<seq<Row>>, q: Query, cursor: Option<Key>, limit: nat, page: Page,
                  all: seq<Row>, rest: seq<Row>)
    requires limit >= 1 && tables != [] && |all| > limit && |rest| == |all| - limit
    requires GetPage(tables[0], q, cursor, limit) == page && page.next.Some? && page.items + rest == all
    requires WalksExactly(tables[1..], q, page.next, limit, rest)
    ensures WalksExactly(tables, q, cursor, limit, all)
  {
  }

  /** On a fixed table the walk ends after exactly max(1, ceil(n / limit)) requests and its pages
      add up to the whole filtered, sorted list. */
  lemma {:induction false} FixedTable(tables: seq<seq<Row>>, table: seq<Row>, q: Query, cursor: Option<Key>,
                                      limit: nat)
    requires forall k :: 0 <= k < |tables| ==> tables[k] == table
    requires DistinctIds(table) && limit >= 1
    ensures WalksExactly(tables, q, cursor, limit, Listing(table, q, cursor))
    decreases |tables|
  {
    var all := Listing(table, q, cursor);
    if tables == [] {
      NoReads(q, cursor, limit, all);
    } else {
      PageStep(table, q, cursor, limit);
      var page := GetPage(table, q, cursor, limit);
      if |all| <= limit {
        LastPage(tables, q, cursor, limit, all);
      } else {
        FixedTable(tables[1..], table, q, page.next, limit);
        InnerPage(tables, q, cursor, limit, page, all, Listing(table, q, page.next));
      }
    }
  }
}
