/** Keyset paging over a user's chat sessions (app/chat/service.py, `list_sessions`). The cursor's JSON and base64 text
    is the constructor `At`; text that does not decode is `Malformed`. */
module SessionPaging {

  import opened Wrappers

  datatype Row = Row(time: int, id: nat, owner: nat, deleted: bool)
  datatype Cursor = Absent | Malformed | At(time: int, id: nat)
  datatype Page = Page(rows: seq<Row>, next: Cursor)
  datatype PagingError = InvalidCursor

  /** `a` is listed before `b`: later activity first, then the larger id. */
  predicate Before(a: Row, b: Row) {
    a.time > b.time || (a.time == b.time && a.id > b.id)
  }

  predicate Visible(row: Row, owner: Option<nat>) {
    !row.deleted && (owner.Some? ==> row.owner == owner.value)
  }

  predicate Behind(row: Row, cursor: Cursor) {
    cursor.At? ==> row.time < cursor.time || (row.time == cursor.time && row.id < cursor.id)
  }

  function Visibles(table: seq<Row>, owner: Option<nat>): seq<Row> {
    if table == [] then []
    else (if Visible(table[0], owner) then [table[0]] else []) + Visibles(table[1..], owner)
  }

  function Rest(rows: seq<Row>, cursor: Cursor): seq<Row> {
    if rows == [] then [] else (if Behind(rows[0], cursor) then [rows[0]] else []) + Rest(rows[1..], cursor)
  }

  function Insert(row: Row, rows: seq<Row>): seq<Row> {
    if rows == [] || Before(row, rows[0]) then [row] + rows else [rows[0]] + Insert(row, rows[1..])
  }

  /** `ORDER BY time DESC, id DESC`. */
  function Ordered(rows: seq<Row>): seq<Row> {
    if rows == [] then [] else Insert(rows[0], Ordered(rows[1..]))
  }

  function Clamped(limit: int, max: nat): int {
    var low := if limit > 1 then limit else 1;
    if low < max then low else max
  }

  /** The page behind a cursor: the first rows, in order, of all that are behind it. */
  function PageAt(table: seq<Row>, owner: Option<nat>, limit: nat, cursor: Cursor): Page
    requires limit > 0
  {
    var rows := Ordered(Rest(Visibles(table, owner), cursor));
    if |rows| > limit then Page(rows[..limit], At(rows[limit - 1].time, rows[limit - 1].id)) else Page(rows, Absent)
  }

  method ListSessions(table: seq<Row>, owner: Option<nat>, limit: int, cursor: Cursor, max: nat)
    returns (result: Result<Page, PagingError>)
    requires max > 0
    ensures result == if cursor.Malformed? then Err(InvalidCursor)
                      else Ok(PageAt(table, owner, Clamped(limit, max), cursor))
    ensures 1 <= Clamped(limit, max) <= max
  {
    var size := if limit > 1 then limit else 1;
    if size > max {
      size := max;
    }
    if cursor.Malformed? {
      return Err(InvalidCursor);
    }
    var rows := Ordered(Rest(Visibles(table, owner), cursor));
    ghost var all := rows;
    if |rows| > size + 1 {
      rows := rows[..size + 1];
    }
    var hasMore := |rows| > size;
    if |rows| > size {
      rows := rows[..size];
    }
    assert |all| > size + 1 ==> all[..size + 1][..size] == all[..size];
    var next := Absent;
    if hasMore && |rows| > 0 {
      next := At(rows[|rows| - 1].time, rows[|rows| - 1].id);
    }
    result := Ok(Page(rows, next));
  }

  // ---------- following the cursor ----------

  /** All rows a client sees that follows `next_cursor` until there is none. */
  function Followed(table: seq<Row>, owner: Option<nat>, limit: nat, cursor: Cursor): seq<Row>
    requires limit > 0 && !cursor.Malformed? && Distinct(Visibles(table, owner))
    decreases |Rest(Visibles(table, owner), cursor)|
  {
    var page := PageAt(table, owner, limit, cursor);
    if page.next.Absent? then page.rows
    else
      NextIsBehind(table, owner, limit, cursor);
      page.rows + Followed(table, owner, limit, page.next)
  }

  ghost predicate Distinct(rows: seq<Row>) {
    forall i, j | 0 <= i < j < |rows| :: rows[i].id != rows[j].id
  }

  ghost predicate Descends(rows: seq<Row>) {
    forall i, j | 0 <= i < j < |rows| :: Before(rows[i], rows[j])
  }

  lemma {:induction false} InsertDescends(row: Row, rows: seq<Row>)
    requires Descends(rows) && forall r | r in rows :: r.id != row.id
    ensures Descends(Insert(row, rows)) && forall r | r in Insert(row, rows) :: r == row || r in rows
  {
    if rows != [] && !Before(row, rows[0]) {
      InsertDescends(row, rows[1..]);
      var rest := Insert(row, rows[1..]);
      assert forall j | 0 <= j < |rest| :: rest[j] in rest;
    }
  }

  lemma {:induction false} InsertBag(row: Row, rows: seq<Row>)
    ensures multiset(Insert(row, rows)) == multiset(rows) + multiset{row}
  {
    if rows == [] || Before(row, rows[0]) {
    } else {
      InsertBag(row, rows[1..]);
      assert rows == [rows[0]] + rows[1..];
    }
  }

  /** Ordering is a permutation, and strict when no two rows have the same id. */
  lemma {:induction false} OrderedIs(rows: seq<Row>)
    requires Distinct(rows)
    ensures Descends(Ordered(rows)) && multiset(Ordered(rows)) == multiset(rows)
    ensures forall r | r in Ordered(rows) :: r in rows
  {
    if rows != [] {
      var rest := Ordered(rows[1..]);
      OrderedIs(rows[1..]);
      forall r | r in rest ensures r.id != rows[0].id {
        var j :| 0 <= j < |rows[1..]| && rows[1..][j] == r;
        assert rows[j + 1] == r;
      }
      InsertDescends(rows[0], rest);
      InsertBag(rows[0], rest);
      assert rows == [rows[0]] + rows[1..];
    }
  }

  lemma {:induction false} RestInsert(row: Row, rows: seq<Row>, cursor: Cursor)
    requires Descends(rows) && forall r | r in rows :: r.id != row.id
    ensures Rest(Insert(row, rows), cursor) ==
      if Behind(row, cursor) then Insert(row, Rest(rows, cursor)) else Rest(rows, cursor)
  {
    if rows != [] {
      if Before(row, rows[0]) {
        assert ([row] + rows)[1..] == rows;
        if Behind(row, cursor) { AllBehind(rows, cursor); }
      } else {
        RestInsert(row, rows[1..], cursor);
        assert ([rows[0]] + Insert(row, rows[1..]))[1..] == Insert(row, rows[1..]);
        if Behind(rows[0], cursor) {
          assert Rest(rows, cursor)[0] == rows[0] && Rest(rows, cursor)[1..] == Rest(rows[1..], cursor);
        } else {
          assert Rest(rows, cursor) == Rest(rows[1..], cursor);
        }
      }
    }
  }

  /** If the first row of an order is behind a cursor, all are. */
  lemma {:induction false} AllBehind(rows: seq<Row>, cursor: Cursor)
    requires Descends(rows) && (rows != [] ==> Behind(rows[0], cursor))
    ensures Rest(rows, cursor) == rows
  {
    if rows != [] { AllBehind(rows[1..], cursor); }
  }

  /** Filtering by the cursor and ordering commute. */
  lemma {:induction false} RestOrdered(rows: seq<Row>, cursor: Cursor)
    requires Distinct(rows)
    ensures Ordered(Rest(rows, cursor)) == Rest(Ordered(rows), cursor)
  {
    if rows != [] {
      RestOrdered(rows[1..], cursor);
      OrderedIs(rows[1..]);
      forall r | r in Ordered(rows[1..]) ensures r.id != rows[0].id {
        var j :| 0 <= j < |rows[1..]| && rows[1..][j] == r;
        assert rows[j + 1] == r;
      }
      RestInsert(rows[0], Ordered(rows[1..]), cursor);
      if Behind(rows[0], cursor) {
        assert Rest(rows, cursor)[0] == rows[0] && Rest(rows, cursor)[1..] == Rest(rows[1..], cursor);
      } else {
        assert Rest(rows, cursor) == Rest(rows[1..], cursor);
      }
    }
  }

  /** Behind the n-th row of an order are exactly the rows that follow it. */
  lemma {:induction false} RestIsSuffix(rows: seq<Row>, n: nat)
    requires Descends(rows) && 0 < n <= |rows|
    ensures Rest(rows, At(rows[n - 1].time, rows[n - 1].id)) == rows[n..]
  {
    var cursor := At(rows[n - 1].time, rows[n - 1].id);
    assert !Behind(rows[0], cursor);
    if n == 1 {
      AllBehind(rows[1..], cursor);
    } else {
      RestIsSuffix(rows[1..], n - 1);
      assert rows[1..][n - 1..] == rows[n..];
    }
  }

  lemma {:induction false} OrderedSize(rows: seq<Row>)
    ensures |Ordered(rows)| == |rows|
  {
    if rows != [] {
      OrderedSize(rows[1..]);
      InsertBag(rows[0], Ordered(rows[1..]));
      assert |multiset(Ordered(rows))| == |Ordered(rows)|;
    }
  }

  lemma {:induction false} RestAll(rows: seq<Row>)
    ensures Rest(rows, Absent) == rows
  {
    if rows != [] { RestAll(rows[1..]); }
  }

  /** With a cursor on an earlier row of the order, the rows behind the next cursor are those behind this page. */
  lemma NextIsBehind(table: seq<Row>, owner: Option<nat>, limit: nat, cursor: Cursor)
    requires limit > 0 && Distinct(Visibles(table, owner)) && PageAt(table, owner, limit, cursor).next.At?
    ensures var rows, next := Visibles(table, owner), PageAt(table, owner, limit, cursor).next;
      && Ordered(Rest(rows, next)) == Ordered(Rest(rows, cursor))[limit..]
      && |Rest(rows, next)| < |Rest(rows, cursor)|
      && |Ordered(Rest(rows, cursor))| > limit
  {
    var rows, next := Visibles(table, owner), PageAt(table, owner, limit, cursor).next;
    var all, rest := Ordered(rows), Ordered(Rest(rows, cursor));
    OrderedIs(rows);
    RestOrdered(rows, cursor);
    RestOrdered(rows, next);
    RestDescends(all, cursor);
    RestIsSuffix(rest, limit);
    RestTwice(all, cursor, next, rest[limit - 1]);
    OrderedSize(Rest(rows, next));
    OrderedSize(Rest(rows, cursor));
  }

  lemma {:induction false} RestDescends(rows: seq<Row>, cursor: Cursor)
    requires Descends(rows)
    ensures Descends(Rest(rows, cursor)) && forall r | r in Rest(rows, cursor) :: r in rows && Behind(r, cursor)
  {
    if rows != [] {
      RestDescends(rows[1..], cursor);
      if Behind(rows[0], cursor) { AllBehind(rows, cursor); }
    }
  }

  lemma {:induction false} RestTwice(rows: seq<Row>, cursor: Cursor, next: Cursor, at: Row)
    requires next == At(at.time, at.id) && Behind(at, cursor)
    ensures Rest(rows, next) == Rest(Rest(rows, cursor), next)
  {
    if rows != [] {
      RestTwice(rows[1..], cursor, next, at);
      if Behind(rows[0], cursor) {
        var rest := Rest(rows, cursor);
        assert rest[0] == rows[0] && rest[1..] == Rest(rows[1..], cursor);
      } else {
        assert Rest(rows, cursor) == Rest(rows[1..], cursor);
      }
    }
  }

  lemma {:induction false} FollowedIs(table: seq<Row>, owner: Option<nat>, limit: nat, cursor: Cursor)
    requires limit > 0 && !cursor.Malformed? && Distinct(Visibles(table, owner))
    ensures Followed(table, owner, limit, cursor) == Ordered(Rest(Visibles(table, owner), cursor))
    decreases |Rest(Visibles(table, owner), cursor)|
  {
    var page := PageAt(table, owner, limit, cursor);
    if page.next.At? {
      var rest := Ordered(Rest(Visibles(table, owner), cursor));
      NextIsBehind(table, owner, limit, cursor);
      FollowedIs(table, owner, limit, page.next);
      assert rest == rest[..limit] + rest[limit..];
    }
  }

  lemma {:induction false} VisiblesHave(table: seq<Row>, owner: Option<nat>, r: Row)
    ensures r in Visibles(table, owner) <==> r in table && Visible(r, owner)
  {
    if table != [] {
      VisiblesHave(table[1..], owner, r);
      assert r in table <==> r == table[0] || r in table[1..];
    }
  }

  lemma {:induction false} VisiblesDistinct(table: seq<Row>, owner: Option<nat>)
    requires Distinct(table)
    ensures Distinct(Visibles(table, owner))
  {
    if table != [] {
      var rest := Visibles(table[1..], owner);
      VisiblesDistinct(table[1..], owner);
      forall i | 0 <= i < |rest| ensures rest[i].id != table[0].id {
        VisiblesHave(table[1..], owner, rest[i]);
        OtherId(table, rest[i]);
      }
    }
  }

  lemma OtherId(table: seq<Row>, r: Row)
    requires Distinct(table) && table != [] && r in table[1..]
    ensures r.id != table[0].id
  {
  }

  lemma VisiblesIs(table: seq<Row>, owner: Option<nat>)
    requires Distinct(table)
    ensures Distinct(Visibles(table, owner))
    ensures forall r :: r in Visibles(table, owner) <==> r in table && Visible(r, owner)
  {
    hide Visibles, Visible, Distinct;
    VisiblesDistinct(table, owner);
    forall r ensures r in Visibles(table, owner) <==> r in table && Visible(r, owner) {
      VisiblesHave(table, owner, r);
    }
  }

  /** Following the cursor over an unchanged table, with any page limit, shows every visible session exactly once, in
      strictly descending order of (time, id). It ends with no cursor: `Followed` is total. */
  lemma FollowingShowsAll(table: seq<Row>, owner: Option<nat>, limit: int, max: nat)
    requires max > 0 && Distinct(table)
    ensures Distinct(Visibles(table, owner))
    ensures var seen := Followed(table, owner, Clamped(limit, max), Absent);
      && Descends(seen) && multiset(seen) == multiset(Visibles(table, owner))
      && forall r :: r in seen <==> r in table && Visible(r, owner)
  {
    VisiblesIs(table, owner);
    FollowedIs(table, owner, Clamped(limit, max), Absent);
    RestAll(Visibles(table, owner));
    OrderedIs(Visibles(table, owner));
    var seen := Followed(table, owner, Clamped(limit, max), Absent);
    forall r ensures r in seen <==> r in Visibles(table, owner) {
      assert r in multiset(seen) <==> r in multiset(Visibles(table, owner));
    }
  }
}
