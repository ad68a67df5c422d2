/**
 * Keyset pagination of events (list_events in apps/api/eventmesh_api/routers/events.py), followed page by page over a
 * table that changes in between.
 */
module Pagination {
  import opened Common

  datatype Row = Row(id: Id, tenant: Id, etype: string, createdAt: Time)

  /** A cursor names the last row of the previous page. */
  datatype Cursor = Cursor(createdAt: Time, id: Id)

  /** One listing: whose events, of which type (an absent or empty type means all), and the requested page size. */
  datatype Query = Query(tenant: Id, etype: Option<string>, limit: int)

  function Clamp(limit: int): (n: nat)
    ensures 1 <= limit <= 200 ==> n == limit
    ensures limit < 1 ==> n == 1
    ensures limit > 200 ==> n == 200
  {
    if limit < 1 then 1 else if limit > 200 then 200 else limit
  }

  predicate Newer(a: Row, b: Row) {
    a.createdAt > b.createdAt || (a.createdAt == b.createdAt && a.id > b.id)
  }

  predicate Matches(q: Query, r: Row) {
    r.tenant == q.tenant && (q.etype.None? || q.etype.value == "" || r.etype == q.etype.value)
  }

  predicate Below(r: Row, cursor: Option<Cursor>) {
    cursor.Some? ==>
      r.createdAt < cursor.value.createdAt || (r.createdAt == cursor.value.createdAt && r.id < cursor.value.id)
  }

  ghost predicate DifferInId(a: Row, b: Row) { a.id == b.id ==> a == b }

  ghost predicate UniqueIds(rows: set<Row>) {
    forall a, b {:trigger DifferInId(a, b)} | a in rows && b in rows :: DifferInId(a, b)
  }

  ghost predicate Leads(rows: set<Row>, r: Row) {
    r in rows && forall x | x in rows && x != r :: Newer(r, x)
  }

  lemma {:induction false} SomeRowLeads(rows: set<Row>)
    requires rows != {} && UniqueIds(rows)
    ensures exists r :: Leads(rows, r)
  {
    var x :| x in rows;
    var others := rows - {x};
    assert rows == others + {x};
    if others == {} {
      assert Leads(rows, x);
    } else {
      SomeRowLeads(others);
      var y :| Leads(others, y);
      assert DifferInId(x, y);
      assert Leads(rows, if Newer(x, y) then x else y);
    }
  }

  /** The newest of some rows: what ORDER BY puts first. */
  ghost function Newest(rows: set<Row>): (r: Row)
    requires rows != {} && UniqueIds(rows)
    ensures r in rows
  {
    SomeRowLeads(rows);
    var r :| Leads(rows, r);
    r
  }

  /** ORDER BY created_at DESC, id DESC LIMIT n. */
  ghost function Select(rows: set<Row>, n: nat): (page: seq<Row>)
    requires UniqueIds(rows)
    ensures |page| == if n <= |rows| then n else |rows|
  {
    if n == 0 || rows == {} then []
    else
      var first := Newest(rows);
      [first] + Select(rows - {first}, n - 1)
  }

  lemma {:induction false} SelectSubset(rows: set<Row>, n: nat)
    requires UniqueIds(rows)
    ensures forall r | r in Select(rows, n) :: r in rows
  {
    if n != 0 && rows != {} {
      SelectSubset(rows - {Newest(rows)}, n - 1);
    }
  }

  /** The rows a page is drawn from. */
  function Candidates(table: set<Row>, q: Query, cursor: Option<Cursor>): set<Row> {
    set r | r in table && Matches(q, r) && Below(r, cursor)
  }

  /** As long as the requested size within 1 and 200, if there are as many matching rows below the cursor. */
  ghost function Page(table: set<Row>, q: Query, cursor: Option<Cursor>): (page: seq<Row>)
    requires UniqueIds(table)
    ensures var size := if q.limit < 1 then 1 else if q.limit > 200 then 200 else q.limit;
            |page| == if |Candidates(table, q, cursor)| < size then |Candidates(table, q, cursor)| else size
  {
    Select(Candidates(table, q, cursor), Clamp(q.limit))
  }

  function Elements(rows: seq<Row>): set<Row> {
    set r | r in rows
  }

  function CursorOf(r: Row): Option<Cursor> { Some(Cursor(r.createdAt, r.id)) }

  ghost predicate Descending(rows: seq<Row>) {
    forall i, j | 0 <= i < j < |rows| :: Newer(rows[i], rows[j])
  }

  /** What a page leaves out is older than all of it. */
  ghost predicate Precedes(page: seq<Row>, rows: set<Row>) {
    forall r, i | r in rows && r !in page && 0 <= i < |page| :: Newer(page[i], r)
  }

  /** A page is in order, comes from the table, and what it leaves out is older than all of it. */
  lemma {:induction false} SelectTakesNewest(rows: set<Row>, n: nat)
    requires UniqueIds(rows)
    ensures Descending(Select(rows, n))
    ensures Precedes(Select(rows, n), rows)
    ensures forall r | r in Select(rows, n) :: r in rows
  {
    if n != 0 && rows != {} {
      var first := Newest(rows);
      assert Leads(rows, first);
      SelectTakesNewest(rows - {first}, n - 1);
    }
  }

  /**
   * What one request returns: rows of the tenant, of the type asked for if one is, below the cursor if there is one; by
   * creation time and then id, both falling; and nothing left out that comes before a row of the page.
   */
  lemma PageIsExact(table: set<Row>, q: Query, cursor: Option<Cursor>)
    requires UniqueIds(table)
    ensures forall r :: r in Candidates(table, q, cursor) <==>
              && r in table && r.tenant == q.tenant
              && (q.etype.Some? && q.etype.value != "" ==> r.etype == q.etype.value)
              && (cursor.Some? ==>
                    || r.createdAt < cursor.value.createdAt
                    || (r.createdAt == cursor.value.createdAt && r.id < cursor.value.id))
    ensures var page := Page(table, q, cursor);
            && (forall r | r in page :: r in Candidates(table, q, cursor))
            && (forall i, j | 0 <= i < j < |page| ::
                  || page[i].createdAt > page[j].createdAt
                  || (page[i].createdAt == page[j].createdAt && page[i].id > page[j].id))
            && (forall r, i | r in Candidates(table, q, cursor) && r !in page && 0 <= i < |page| ::
                  || page[i].createdAt > r.createdAt
                  || (page[i].createdAt == r.createdAt && page[i].id > r.id))
  {
    var page := Page(table, q, cursor);
    SelectTakesNewest(Candidates(table, q, cursor), Clamp(q.limit));
    assert forall i, j | 0 <= i < j < |page| :: Newer(page[i], page[j]);
    assert forall r, i | r in Candidates(table, q, cursor) && r !in page && 0 <= i < |page| :: Newer(page[i], r);
  }

  // ---- Any changes between the pages. ----

  datatype Visit = Visit(rows: seq<Row>, ended: bool)

  /** Follows the cursor over successive snapshots of the table; it has ended once a page comes back empty. */
  ghost function Follow(tables: seq<set<Row>>, q: Query, cursor: Option<Cursor>): Visit
    requires AllUnique(tables)
  {
    if tables == [] then Visit([], false)
    else
      var page := Page(tables[0], q, cursor);
      if page == [] then Visit([], true)
      else
        var rest := Follow(tables[1..], q, CursorOf(page[|page| - 1]));
        Visit(page + rest.rows, rest.ended)
  }

  ghost predicate AllUnique(tables: seq<set<Row>>) {
    forall i | 0 <= i < |tables| :: UniqueIds(tables[i])
  }

  /** The row was in the table at the time of some page. */
  ghost predicate Seen(tables: seq<set<Row>>, r: Row) {
    exists i :: 0 <= i < |tables| && r in tables[i]
  }

  /** The row was in the table at the time of every page. */
  ghost predicate Stays(tables: seq<set<Row>>, r: Row) {
    forall i | 0 <= i < |tables| :: r in tables[i]
  }

  lemma {:induction false} FollowReturnsMatches(tables: seq<set<Row>>, q: Query, cursor: Option<Cursor>, r: Row)
    requires AllUnique(tables) && r in Follow(tables, q, cursor).rows
    ensures Matches(q, r) && Below(r, cursor) && Seen(tables, r)
  {
    var page := Page(tables[0], q, cursor);
    SelectSubset(Candidates(tables[0], q, cursor), Clamp(q.limit));
    if r in page {
      assert r in tables[0];
    } else {
      var last := page[|page| - 1];
      assert last in Candidates(tables[0], q, cursor);
      FollowReturnsMatches(tables[1..], q, CursorOf(last), r);
      var i :| 0 <= i < |tables[1..]| && r in tables[1..][i];
      assert r in tables[i + 1];
    }
  }

  lemma {:induction false} FollowDescends(tables: seq<set<Row>>, q: Query, cursor: Option<Cursor>)
    requires AllUnique(tables)
    ensures Descending(Follow(tables, q, cursor).rows)
  {
    if tables != [] && Page(tables[0], q, cursor) != [] {
      var page := Page(tables[0], q, cursor);
      var last := page[|page| - 1];
      var rest := Follow(tables[1..], q, CursorOf(last)).rows;
      SelectTakesNewest(Candidates(tables[0], q, cursor), Clamp(q.limit));
      FollowDescends(tables[1..], q, CursorOf(last));
      forall j | 0 <= j < |rest| ensures Newer(last, rest[j]) {
        FollowReturnsMatches(tables[1..], q, CursorOf(last), rest[j]);
      }
      JoinDescending(page, rest);
    }
  }

  lemma JoinDescending(a: seq<Row>, b: seq<Row>)
    requires Descending(a) && Descending(b) && a != []
    requires forall j | 0 <= j < |b| :: Newer(a[|a| - 1], b[j])
    ensures Descending(a + b)
  {
    forall i, j | 0 <= i < j < |a + b| ensures Newer((a + b)[i], (a + b)[j]) {
      if i < |a| <= j {
        assert i == |a| - 1 || Newer(a[i], a[|a| - 1]);
        assert Newer(a[|a| - 1], b[j - |a|]);
      }
    }
  }

  lemma {:induction false} FollowFinds(tables: seq<set<Row>>, q: Query, cursor: Option<Cursor>, r: Row)
    requires AllUnique(tables) && Follow(tables, q, cursor).ended
    requires Matches(q, r) && Below(r, cursor) && Stays(tables, r)
    ensures r in Follow(tables, q, cursor).rows
  {
    var candidates, page := Candidates(tables[0], q, cursor), Page(tables[0], q, cursor);
    assert r in candidates;
    if r !in page {
      SelectTakesNewest(candidates, Clamp(q.limit));
      assert Newer(page[|page| - 1], r);
      FollowFinds(tables[1..], q, CursorOf(page[|page| - 1]), r);
    }
  }

  /**
   * Whatever is inserted or removed between the pages, the rows come in strictly descending order, so none comes
   * twice, each matches and was in the table, and a listing that ends has returned every matching row that was there
   * throughout.
   */
  lemma FollowIsSound(tables: seq<set<Row>>, q: Query)
    requires AllUnique(tables)
    ensures Descending(Follow(tables, q, None).rows)
    ensures forall r | r in Follow(tables, q, None).rows :: Matches(q, r) && Seen(tables, r)
    ensures Follow(tables, q, None).ended ==>
              forall r | Matches(q, r) && Stays(tables, r) :: r in Follow(tables, q, None).rows
  {
    FollowDescends(tables, q, None);
    forall r | r in Follow(tables, q, None).rows ensures Matches(q, r) && Seen(tables, r) {
      FollowReturnsMatches(tables, q, None, r);
    }
    if Follow(tables, q, None).ended {
      forall r | Matches(q, r) && Stays(tables, r) ensures r in Follow(tables, q, None).rows {
        FollowFinds(tables, q, None, r);
      }
    }
  }

  // ---- Only newer rows are inserted between the pages. ----

  /** The table at the time of each page; rows that appear later are newer than all that was there before. */
  ghost predicate Growing(tables: nat -> set<Row>) {
    forall k: nat :: GrowsAt(tables, k)
  }

  ghost predicate GrowsAt(tables: nat -> set<Row>, k: nat) {
    && UniqueIds(tables(k))
    && tables(k) <= tables(k + 1)
    && (forall r, s | r in tables(k + 1) && r !in tables(k) && s in tables(k) :: Newer(r, s))
  }

  lemma NextCandidates(tables: nat -> set<Row>, k: nat, q: Query, cursor: Option<Cursor>)
    requires GrowsAt(tables, k) && Page(tables(k), q, cursor) != []
    ensures var page := Page(tables(k), q, cursor);
            Candidates(tables(k + 1), q, CursorOf(page[|page| - 1])) == Candidates(tables(k), q, cursor) - Elements(page)
  {
    var candidates, page := Candidates(tables(k), q, cursor), Page(tables(k), q, cursor);
    var last := page[|page| - 1];
    SelectTakesNewest(candidates, Clamp(q.limit));
    assert last in candidates;
    forall r | r in Candidates(tables(k + 1), q, CursorOf(last)) ensures r in candidates && r !in page {
      assert Newer(last, r);
      assert r in tables(k) || Newer(r, last);
    }
    forall r | r in candidates && r !in page ensures Below(r, CursorOf(last)) {
      assert Newer(page[|page| - 1], r);
    }
  }

  /** Follows the cursor until a page comes back empty: the number of rows still below the cursor shrinks. */
  ghost function ListAll(tables: nat -> set<Row>, k: nat, q: Query, cursor: Option<Cursor>): seq<Row>
    requires Growing(tables)
    decreases |Candidates(tables(k), q, cursor)|
  {
    assert GrowsAt(tables, k);
    var candidates, page := Candidates(tables(k), q, cursor), Page(tables(k), q, cursor);
    if page == [] then []
    else
      NextCandidates(tables, k, q, cursor);
      SelectSubset(candidates, Clamp(q.limit));
      FewerLeft(candidates, page);
      page + ListAll(tables, k + 1, q, CursorOf(page[|page| - 1]))
  }

  lemma FewerLeft(candidates: set<Row>, page: seq<Row>)
    requires page != [] && forall r | r in page :: r in candidates
    ensures |candidates - Elements(page)| < |candidates|
  {
    var left := candidates - Elements(page);
    assert page[0] in candidates && page[0] !in left;
    Smaller(left, candidates);
  }

  lemma {:induction false} Smaller<T>(a: set<T>, b: set<T>)
    requires a < b
    ensures |a| < |b|
  {
    if a != {} {
      var x :| x in a;
      Smaller(a - {x}, b - {x});
    }
  }

  /** The complete listing in order. */
  ghost function Sorted(rows: set<Row>): seq<Row>
    requires UniqueIds(rows)
  {
    if rows == {} then [] else [Newest(rows)] + Sorted(rows - {Newest(rows)})
  }

  lemma EmptyPrefix(c: seq<Row>)
    ensures [] + c == c
  {
  }

  lemma Regroup(a: seq<Row>, b: seq<Row>, c: seq<Row>)
    ensures a + (b + c) == (a + b) + c
  {
  }

  lemma ElementsHead(rows: set<Row>, first: Row, tail: seq<Row>)
    ensures rows - Elements([first] + tail) == rows - {first} - Elements(tail)
  {
  }

  lemma {:induction false} SortedSplits(rows: set<Row>, n: nat, page: seq<Row>, left: set<Row>)
    requires UniqueIds(rows) && page == Select(rows, n) && left == rows - Elements(page)
    ensures Sorted(rows) == page + Sorted(left)
  {
    if n == 0 || rows == {} {
      assert page == [] && left == rows;
      EmptyPrefix(Sorted(rows));
    } else {
      var first := Newest(rows);
      var tail := Select(rows - {first}, n - 1);
      ElementsHead(rows, first, tail);
      SortedSplits(rows - {first}, n - 1, tail, left);
      Regroup([first], tail, Sorted(left));
    }
  }

  /**
   * Paging is complete: for any requested page size, and with newer events arriving between the pages, following the
   * cursor ends and yields exactly the matching rows that were there at the start, each once, newest first.
   */
  lemma {:induction false} ListAllIsComplete(tables: nat -> set<Row>, k: nat, q: Query, cursor: Option<Cursor>)
    requires Growing(tables)
    ensures GrowsAt(tables, k)
    ensures ListAll(tables, k, q, cursor) == Sorted(Candidates(tables(k), q, cursor))
    decreases |Candidates(tables(k), q, cursor)|
  {
    assert GrowsAt(tables, k);
    var candidates, page := Candidates(tables(k), q, cursor), Page(tables(k), q, cursor);
    if page != [] {
      NextCandidates(tables, k, q, cursor);
      SelectSubset(candidates, Clamp(q.limit));
      FewerLeft(candidates, page);
      ListAllIsComplete(tables, k + 1, q, CursorOf(page[|page| - 1]));
      SortedSplits(candidates, Clamp(q.limit), page, candidates - Elements(page));
    }
  }

  /** The complete listing holds every row exactly once and in order. */
  lemma {:induction false} SortedIsListing(rows: set<Row>)
    requires UniqueIds(rows)
    ensures Descending(Sorted(rows)) && |Sorted(rows)| == |rows|
    ensures forall r :: r in Sorted(rows) <==> r in rows
  {
    if rows != {} {
      var first := Newest(rows);
      assert Leads(rows, first);
      SortedIsListing(rows - {first});
    }
  }
}
