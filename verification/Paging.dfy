/** Keyset paging: the page builders of apps/api/app/graph/service.py and the client that follows them,
    apps/web/src/pages/GraphPage.tsx.  The table may change between two pages. */
module Paging {
  import opened Wrappers
  import opened Helpers

  /** An entity or a relation, with the filter's verdict on it and the rest of its columns. */
  datatype Row = Row(id: int, supported: bool, body: int)

  datatype Page = Page(rows: seq<Row>, next: Option<int>)

  /** Ascending primary keys. */
  ghost predicate Ascending(rows: seq<Row>) {
    forall i, j :: 0 <= i < j < |rows| ==> rows[i].id < rows[j].id
  }

  predicate After(r: Row, cursor: Option<int>) {
    cursor.Some? ==> r.id > cursor.value
  }

  /** The supported rows behind a cursor, in key order. */
  function Rest(table: seq<Row>, cursor: Option<int>): seq<Row> {
    if table == [] then []
    else (if table[0].supported && After(table[0], cursor) then [table[0]] else []) + Rest(table[1..], cursor)
  }

  lemma {:induction false} RestSelects(table: seq<Row>, cursor: Option<int>)
    requires Ascending(table)
    ensures Ascending(Rest(table, cursor))
    ensures forall r :: r in Rest(table, cursor) <==> r in table && r.supported && After(r, cursor)
  {
    if table != [] {
      RestSelects(table[1..], cursor);
      assert forall r :: r in table <==> r == table[0] || r in table[1..];
      var rest := Rest(table[1..], cursor);
      forall j | 0 <= j < |rest|
        ensures table[0].id < rest[j].id
      {
        assert rest[j] in table[1..];
      }
      PrependAscends(table[0], rest);
    }
  }

  lemma PrependAscends(r: Row, rest: seq<Row>)
    requires Ascending(rest) && forall j :: 0 <= j < |rest| ==> r.id < rest[j].id
    ensures Ascending([r] + rest)
  {
    forall i, j | 0 <= i < j < |rest| + 1
      ensures ([r] + rest)[i].id < ([r] + rest)[j].id
    {
      assert ([r] + rest)[j] == rest[j - 1];
    }
  }

  /** One page: up to `limit` rows behind the cursor, and a cursor for more exactly when there are more. */
  method BuildPage(table: seq<Row>, cursor: Option<int>, limit: nat) returns (page: Page)
    requires limit >= 1
    ensures page.rows == Take(Rest(table, cursor), limit)
    ensures page.next.Some? <==> |Rest(table, cursor)| > limit
    ensures page.next.Some? ==> |page.rows| == limit && page.next.value == page.rows[limit - 1].id
  {
    var rows := Take(Rest(table, cursor), limit + 1);
    var hasMore := |rows| > limit;
    var shown := Take(rows, limit);
    page := Page(shown, if hasMore && shown != [] then Some(shown[|shown| - 1].id) else None);
  }

  // ---------- The client's loop ----------

  ghost predicate Holds(table: seq<Row>, id: int) {
    exists r :: r in table && r.supported && r.id == id
  }

  /** The row is there on each of the first `n` requests. */
  ghost predicate Stays(tables: nat -> seq<Row>, n: nat, id: int) {
    forall p: nat :: p < n ==> Holds(tables(p), id)
  }

  ghost predicate Has(rows: seq<Row>, id: int) {
    exists i :: 0 <= i < |rows| && rows[i].id == id
  }

  ghost predicate Seen(tables: nat -> seq<Row>, n: nat, r: Row) {
    exists p: nat :: p < n && r in tables(p) && r.supported
  }

  /** The rows so far: in strict key order up to the cursor, all of them read, and nothing that stayed is missing. */
  ghost predicate Loaded(tables: nat -> seq<Row>, n: nat, rows: seq<Row>, cursor: Option<int>) {
    && Ascending(rows)
    && (forall i :: 0 <= i < |rows| ==> Seen(tables, n, rows[i]) && !After(rows[i], cursor))
    && (forall id {:trigger Has(rows, id)} :: Stays(tables, n, id) && (cursor.Some? ==> id <= cursor.value) ==> Has(rows, id))
  }

  /** After the last page there is no cursor; then nothing that stayed is missing at all. */
  ghost predicate AllLoaded(tables: nat -> seq<Row>, n: nat, rows: seq<Row>) {
    && Ascending(rows)
    && (forall i :: 0 <= i < |rows| ==> Seen(tables, n, rows[i]))
    && (forall id {:trigger Has(rows, id)} :: Stays(tables, n, id) ==> Has(rows, id))
  }

  lemma StaysLess(tables: nat -> seq<Row>, n: nat, id: int)
    requires Stays(tables, n + 1, id)
    ensures Stays(tables, n, id) && Holds(tables(n), id)
  {
  }

  /** Where the next page starts: at the front, or behind the rows loaded so far. */
  ghost predicate Resumes(tables: nat -> seq<Row>, n: nat, rows: seq<Row>, cursor: Option<int>) {
    if cursor.None? then rows == [] else Loaded(tables, n, rows, cursor)
  }

  lemma JoinAscends(rows: seq<Row>, more: seq<Row>, cursor: Option<int>)
    requires Ascending(rows) && Ascending(more)
    requires forall i :: 0 <= i < |rows| ==> cursor.Some? && rows[i].id <= cursor.value
    requires forall r :: r in more ==> After(r, cursor)
    ensures Ascending(rows + more)
  {
    forall i, j | 0 <= i < j < |rows + more|
      ensures (rows + more)[i].id < (rows + more)[j].id
    {
      if j >= |rows| {
        assert more[j - |rows|] in more;
      }
    }
  }

  lemma Extends(tables: nat -> seq<Row>, n: nat, rows: seq<Row>, cursor: Option<int>, limit: nat, page: Page)
    requires limit >= 1 && Ascending(tables(n)) && Resumes(tables, n, rows, cursor)
    requires page.rows == Take(Rest(tables(n), cursor), limit)
    requires page.next.Some? <==> |Rest(tables(n), cursor)| > limit
    requires page.next.Some? ==> page.next.value == page.rows[limit - 1].id
    ensures AllSeen(tables, n + 1, rows + page.rows) && Ascending(rows + page.rows)
    ensures page.next.None? ==> AllLoaded(tables, n + 1, rows + page.rows)
    ensures page.next.Some? ==> Loaded(tables, n + 1, rows + page.rows, page.next)
  {
    RestSelects(tables(n), cursor);
    TakenAscend(Rest(tables(n), cursor), limit);
    JoinAscends(rows, page.rows, cursor);
    forall i | 0 <= i < |rows + page.rows|
      ensures Seen(tables, n + 1, (rows + page.rows)[i])
      ensures page.next.Some? ==> !After((rows + page.rows)[i], page.next)
    {
      RowIsSeen(tables, n, rows, cursor, limit, page, i);
    }
    forall id | Stays(tables, n + 1, id) && (page.next.Some? ==> id <= page.next.value)
      ensures Has(rows + page.rows, id)
    {
      Found(tables, n, rows, cursor, page.rows, id, page.next);
    }
  }

  /** The front of ascending rows ascends, and holds whatever lies up to its last row. */
  lemma TakenAscend(rows: seq<Row>, n: nat)
    requires Ascending(rows)
    ensures Ascending(Take(rows, n))
    ensures |rows| > n > 0 ==> forall r :: r in rows && r.id <= Take(rows, n)[n - 1].id ==> r in Take(rows, n)
    ensures |rows| <= n ==> Take(rows, n) == rows
  {
    if |rows| > n > 0 {
      forall r | r in rows && r.id <= Take(rows, n)[n - 1].id
        ensures r in Take(rows, n)
      {
        var k :| 0 <= k < |rows| && rows[k] == r;
        assert k < n && Take(rows, n)[k] == r;
      }
    }
  }

  lemma RowIsSeen(tables: nat -> seq<Row>, n: nat, rows: seq<Row>, cursor: Option<int>, limit: nat, page: Page, i: int)
    requires limit >= 1 && Ascending(tables(n)) && Resumes(tables, n, rows, cursor)
    requires page.rows == Take(Rest(tables(n), cursor), limit)
    requires page.next.Some? ==> |page.rows| == limit && page.next.value == page.rows[limit - 1].id
    requires 0 <= i < |rows + page.rows|
    ensures Seen(tables, n + 1, (rows + page.rows)[i])
    ensures page.next.Some? ==> !After((rows + page.rows)[i], page.next)
  {
    RestSelects(tables(n), cursor);
    if i < |rows| {
      SeenMore(tables, n, rows[i]);
      if page.next.Some? {
        assert page.rows[limit - 1] in page.rows;
      }
    } else {
      assert page.rows[i - |rows|] in page.rows;
    }
  }

  lemma SeenMore(tables: nat -> seq<Row>, n: nat, r: Row)
    requires Seen(tables, n, r)
    ensures Seen(tables, n + 1, r)
  {
    var p: nat :| p < n && r in tables(p) && r.supported;
    assert p < n + 1;
  }

  lemma Found(tables: nat -> seq<Row>, n: nat, rows: seq<Row>, cursor: Option<int>, more: seq<Row>, id: int,
              next: Option<int>)
    requires Stays(tables, n + 1, id) && Resumes(tables, n, rows, cursor)
    requires next.Some? ==> id <= next.value
    requires forall r :: r in tables(n) && r.supported && After(r, cursor) && (next.Some? ==> r.id <= next.value)
                         ==> r in more
    ensures Has(rows + more, id)
  {
    StaysLess(tables, n, id);
    if cursor.Some? && id <= cursor.value {
      assert Has(rows, id);
      var i :| 0 <= i < |rows| && rows[i].id == id;
      assert (rows + more)[i].id == id;
    } else {
      var r :| r in tables(n) && r.supported && r.id == id;
      assert r in more;
      var i :| 0 <= i < |more| && more[i] == r;
      assert (rows + more)[|rows| + i].id == id;
    }
  }

  ghost predicate AllSeen(tables: nat -> seq<Row>, n: nat, rows: seq<Row>) {
    forall i :: 0 <= i < |rows| ==> Seen(tables, n, rows[i])
  }

  /** What a finished load returns: rows in strict key order, read from some page; whatever stayed is among them,
      unless the cap was reached and it lies behind the last one. */
  ghost predicate Complete(tables: nat -> seq<Row>, n: nat, rows: seq<Row>, cap: nat) {
    && |rows| <= cap && Ascending(rows) && AllSeen(tables, n, rows)
    && forall id {:trigger Has(rows, id)} ::
         Stays(tables, n, id) ==> Has(rows, id) || (|rows| == cap && cap > 0 && rows[cap - 1].id < id)
  }

  lemma Capped(tables: nat -> seq<Row>, n: nat, rows: seq<Row>, cursor: Option<int>, cap: nat)
    requires 0 < cap <= |rows|
    requires if cursor.None? then AllLoaded(tables, n, rows) else Loaded(tables, n, rows, cursor)
    ensures Complete(tables, n, rows[..cap], cap)
  {
    forall id | Stays(tables, n, id)
      ensures Has(rows[..cap], id) || rows[cap - 1].id < id
    {
      if id <= rows[cap - 1].id {
        assert Has(rows, id);
        var i :| 0 <= i < |rows| && rows[i].id == id;
        assert rows[..cap][i].id == id;
      }
    }
  }

  /** The client asks until there is no cursor or its cap is reached.  Request p reads `tables(p)`. */
  method LoadAll(tables: nat -> seq<Row>, limit: nat, cap: nat) returns (rows: seq<Row>, requests: nat)
    requires limit >= 1 && cap >= 1
    requires forall p: nat :: Ascending(tables(p))
    ensures Complete(tables, requests, rows, cap)
    ensures requests >= 1 && Times(requests - 1, limit) < cap
    ensures Unchanging(tables) ==> rows == Take(Rest(tables(0), None), cap)
  {
    rows, requests := [], 0;
    var cursor := None;
    var going := true;
    while going
      invariant if going then Underway(tables, requests, rows, cursor, limit, cap)
                else Finished(tables, requests, rows, limit, cap)
      decreases if going then cap - |rows| + 1 else 0
    {
      rows, cursor := LoadNext(tables, requests, rows, cursor, limit, cap);
      requests, going := requests + 1, cursor.Some?;
    }
  }

  /** One more page; no cursor means that the client stops. */
  method LoadNext(tables: nat -> seq<Row>, n: nat, before: seq<Row>, cursor: Option<int>, limit: nat, cap: nat)
      returns (rows: seq<Row>, next: Option<int>)
    requires limit >= 1 && Ascending(tables(n)) && Ascending(tables(0))
    requires Underway(tables, n, before, cursor, limit, cap)
    ensures next.Some? ==> Underway(tables, n + 1, rows, next, limit, cap) && |rows| > |before|
    ensures next.None? ==> Finished(tables, n + 1, rows, limit, cap)
  {
    var page := BuildPage(tables(n), cursor, limit);
    Extends(tables, n, before, cursor, limit, page);
    FixedStep(tables, n, before, cursor, limit, page);
    rows, next := before + page.rows, page.next;
    FullPages(n, |before|, limit);
    if |rows| >= cap {
      Capped(tables, n + 1, rows, next, cap);
      StopsAtCap(tables, n, rows, next, limit, cap);
      rows, next := rows[..cap], None;
    }
  }

  lemma FullPages(n: nat, loaded: nat, limit: nat)
    requires loaded == Times(n, limit)
    ensures loaded + limit == Times(n + 1, limit)
  {
  }

  lemma StopsAtCap(tables: nat -> seq<Row>, n: nat, rows: seq<Row>, next: Option<int>, limit: nat, cap: nat)
    requires |rows| >= cap && Complete(tables, n + 1, rows[..cap], cap) && Times(n, limit) < cap
    requires Tracks(tables, rows, if next.None? then [] else Rest(tables(0), next))
    ensures Finished(tables, n + 1, rows[..cap], limit, cap)
  {
  }

  /** On an unchanging table the rows so far and the rest make up the whole table. */
  ghost predicate Tracks(tables: nat -> seq<Row>, rows: seq<Row>, rest: seq<Row>) {
    Unchanging(tables) ==> rows + rest == Rest(tables(0), None)
  }

  ghost predicate Finished(tables: nat -> seq<Row>, n: nat, rows: seq<Row>, limit: nat, cap: nat) {
    && Complete(tables, n, rows, cap)
    && n >= 1 && Times(n - 1, limit) < cap
    && (Unchanging(tables) ==> rows == Take(Rest(tables(0), None), cap))
  }

  ghost predicate Unchanging(tables: nat -> seq<Row>) {
    forall p: nat :: tables(p) == tables(0)
  }

  /** Between two requests: every page so far was full. */
  ghost predicate Underway(tables: nat -> seq<Row>, n: nat, rows: seq<Row>, cursor: Option<int>, limit: nat, cap: nat) {
    && Resumes(tables, n, rows, cursor)
    && |rows| < cap && |rows| == Times(n, limit)
    && Tracks(tables, rows, Rest(tables(0), cursor))
  }

  lemma {:induction false} SameRest(table: seq<Row>, c: Option<int>, d: Option<int>)
    requires forall r :: r in table ==> (After(r, c) <==> After(r, d))
    ensures Rest(table, c) == Rest(table, d)
  {
    if table != [] {
      assert table[0] in table;
      SameRest(table[1..], c, d);
    }
  }

  lemma FirstResumes(table: seq<Row>, cursor: Option<int>)
    requires Ascending(table) && table != [] && After(table[0], cursor)
    ensures Rest(table, Some(table[0].id)) == Rest(table[1..], cursor)
  {
    var here := Some(table[0].id);
    forall r | r in table[1..]
      ensures After(r, cursor) && After(r, here)
    {
      var i :| 0 <= i < |table[1..]| && table[1..][i] == r;
      assert table[0].id < table[i + 1].id;
    }
    SameRest(table[1..], cursor, here);
  }

  lemma LaterResumes(table: seq<Row>, cursor: Option<int>, n: nat, tail: seq<Row>)
    requires table != [] && table[0].supported && After(table[0], cursor)
    requires tail == Rest(table[1..], cursor) && 1 < n <= |tail| + 1 && table[0].id < tail[n - 2].id
    requires Rest(table[1..], Some(tail[n - 2].id)) == tail[n - 1..]
    ensures Rest(table, Some(Rest(table, cursor)[n - 1].id)) == Rest(table, cursor)[n..]
  {
    assert Rest(table, cursor) == [table[0]] + tail;
  }

  lemma RestAt(table: seq<Row>, cursor: Option<int>, n: nat)
    requires Ascending(table) && 0 < n <= |Rest(table, cursor)|
    ensures After(Rest(table, cursor)[n - 1], cursor)
    ensures n > 1 ==> Rest(table, cursor)[0].id < Rest(table, cursor)[n - 1].id
  {
    RestSelects(table, cursor);
    assert Rest(table, cursor)[n - 1] in Rest(table, cursor);
  }

  /** Behind the last row of a page lies exactly what the page left over. */
  lemma {:induction false} RestResumes(table: seq<Row>, cursor: Option<int>, n: nat)
    requires Ascending(table) && 0 < n <= |Rest(table, cursor)|
    ensures Rest(table, Some(Rest(table, cursor)[n - 1].id)) == Rest(table, cursor)[n..]
  {
    RestAt(table, cursor, n);
    if !(table[0].supported && After(table[0], cursor)) {
      RestResumes(table[1..], cursor, n);
    } else if n == 1 {
      FirstResumes(table, cursor);
      assert Rest(table, cursor)[1..] == Rest(table[1..], cursor);
    } else {
      var tail := Rest(table[1..], cursor);
      assert Rest(table, cursor) == [table[0]] + tail;
      RestResumes(table[1..], cursor, n - 1);
      LaterResumes(table, cursor, n, tail);
    }
  }

  lemma Regroup(rows: seq<Row>, rest: seq<Row>, n: nat)
    requires n <= |rest|
    ensures (rows + rest[..n]) + rest[n..] == rows + rest
  {
  }

  lemma FixedStep(tables: nat -> seq<Row>, n: nat, rows: seq<Row>, cursor: Option<int>, limit: nat, page: Page)
    requires limit >= 1 && Ascending(tables(0)) && Tracks(tables, rows, Rest(tables(0), cursor))
    requires page.rows == Take(Rest(tables(n), cursor), limit)
    requires page.next.Some? <==> |Rest(tables(n), cursor)| > limit
    requires page.next.Some? ==> page.next.value == page.rows[limit - 1].id
    ensures Tracks(tables, rows + page.rows, if page.next.None? then [] else Rest(tables(0), page.next))
  {
    var rest := Rest(tables(0), cursor);
    if Unchanging(tables) && page.next.Some? {
      assert tables(n) == tables(0);
      RestResumes(tables(0), cursor, limit);
      Regroup(rows, rest, limit);
    }
  }

  method LoadAllExplorerNodes(tables: nat -> seq<Row>) returns (rows: seq<Row>, requests: nat)
    requires forall p: nat :: Ascending(tables(p))
    ensures Complete(tables, requests, rows, 5000) && 1 <= requests <= 2
    ensures Unchanging(tables) ==> rows == Take(Rest(tables(0), None), 5000)
  {
    rows, requests := LoadAll(tables, 3000, 5000);
  }

  method LoadAllExplorerRelations(tables: nat -> seq<Row>) returns (rows: seq<Row>, requests: nat)
    requires forall p: nat :: Ascending(tables(p))
    ensures Complete(tables, requests, rows, 15000) && 1 <= requests <= 3
    ensures Unchanging(tables) ==> rows == Take(Rest(tables(0), None), 15000)
  {
    rows, requests := LoadAll(tables, 5000, 15000);
  }
}
