/** The history query, and reading a room's whole history page by page. */
module History {
  import opened Prelude
  import P = Persistence

  type Row = P.Record

  const DEFAULT_LIMIT := 50
  const MAX_LIMIT := 100
  const DAY := 86400 * 1000000000  // 24 hours in nanoseconds

  function Clamp(limit: int): (n: nat)
    ensures 1 <= n <= MAX_LIMIT
  {
    if limit <= 0 || limit > MAX_LIMIT then DEFAULT_LIMIT else limit
  }

  /** Rows before the cursor. */
  function Before(rows: seq<Row>, cursor: int): seq<Row> {
    if rows == [] then []
    else if rows[0].at < cursor then [rows[0]] + Before(rows[1..], cursor)
    else Before(rows[1..], cursor)
  }

  function InRoom(rows: seq<Row>, room: Bytes): seq<Row> {
    if rows == [] then []
    else if rows[0].room == room then [rows[0]] + InRoom(rows[1..], room)
    else InRoom(rows[1..], room)
  }

  function Insert(r: Row, rows: seq<Row>): seq<Row> {
    if rows == [] || r.at >= rows[0].at then [r] + rows else [rows[0]] + Insert(r, rows[1..])
  }

  /** Newest first; rows of the same time keep their order in the table. */
  function Newest(rows: seq<Row>): seq<Row> {
    if rows == [] then [] else Insert(rows[0], Newest(rows[1..]))
  }

  predicate Descending(rows: seq<Row>) {
    forall i, j :: 0 <= i < j < |rows| ==> rows[i].at >= rows[j].at
  }

  /** All rows of the room before the cursor, newest first. */
  function Sought(table: seq<Row>, room: Bytes, cursor: int): seq<Row> {
    Newest(Before(InRoom(table, room), cursor))
  }

  function Take(rows: seq<Row>, n: nat): seq<Row> { if |rows| <= n then rows else rows[..n] }

  /** A missing cursor stands for a day from now. */
  function Cursor(before: Option<int>, now: int): int {
    if before.None? then now + DAY else before.value
  }

  function ListByRoom(table: seq<Row>, room: Bytes, limit: int, before: Option<int>, now: int): seq<Row> {
    Take(Sought(table, room, Cursor(before, now)), Clamp(limit))
  }

  // ---------- what the query returns ----------

  lemma {:induction false} InsertCounts(r: Row, rows: seq<Row>)
    ensures multiset(Insert(r, rows)) == multiset(rows) + multiset{r}
  {
    if rows != [] && r.at < rows[0].at {
      InsertCounts(r, rows[1..]);
      assert rows == [rows[0]] + rows[1..];
    }
  }

  lemma {:induction false} InsertAtMost(r: Row, rows: seq<Row>, cap: int)
    requires r.at <= cap && forall i :: 0 <= i < |rows| ==> rows[i].at <= cap
    ensures forall i :: 0 <= i < |Insert(r, rows)| ==> Insert(r, rows)[i].at <= cap
  {
    if rows != [] && r.at < rows[0].at {
      InsertAtMost(r, rows[1..], cap);
    }
  }

  lemma {:induction false} InsertSorted(r: Row, rows: seq<Row>)
    requires Descending(rows)
    ensures Descending(Insert(r, rows))
  {
    if rows != [] && r.at < rows[0].at {
      InsertSorted(r, rows[1..]);
      InsertAtMost(r, rows[1..], rows[0].at);
    }
  }

  lemma {:induction false} NewestSorted(rows: seq<Row>)
    ensures Descending(Newest(rows)) && multiset(Newest(rows)) == multiset(rows)
  {
    if rows != [] {
      NewestSorted(rows[1..]);
      InsertSorted(rows[0], Newest(rows[1..]));
      InsertCounts(rows[0], Newest(rows[1..]));
      assert rows == [rows[0]] + rows[1..];
    }
  }

  lemma {:induction false} InRoomIs(rows: seq<Row>, room: Bytes, r: Row)
    ensures multiset(InRoom(rows, room))[r] == if r.room == room then multiset(rows)[r] else 0
  {
    if rows != [] {
      InRoomIs(rows[1..], room, r);
      assert rows == [rows[0]] + rows[1..];
    }
  }

  lemma {:induction false} BeforeIs(rows: seq<Row>, cursor: int, r: Row)
    ensures multiset(Before(rows, cursor))[r] == if r.at < cursor then multiset(rows)[r] else 0
  {
    if rows != [] {
      BeforeIs(rows[1..], cursor, r);
      assert rows == [rows[0]] + rows[1..];
    }
  }

  /** The rows sought are in descending order and are exactly the table's rows of that room before the cursor. */
  lemma SoughtIs(table: seq<Row>, room: Bytes, cursor: int, r: Row)
    ensures Descending(Sought(table, room, cursor))
    ensures multiset(Sought(table, room, cursor))[r]
         == if r.room == room && r.at < cursor then multiset(table)[r] else 0
  {
    NewestSorted(Before(InRoom(table, room), cursor));
    BeforeIs(InRoom(table, room), cursor, r);
    InRoomIs(table, room, r);
  }

  /** Where the table holds a row of the room from before the cut. */
  ghost function Matching(table: seq<Row>, room: Bytes, cut: int): set<nat> {
    set i | 0 <= i < |table| && table[i].room == room && table[i].at < cut
  }

  lemma {:induction false} InRoomLast(rows: seq<Row>, room: Bytes, r: Row)
    ensures InRoom(rows + [r], room) == InRoom(rows, room) + if r.room == room then [r] else []
  {
    if rows != [] {
      InRoomLast(rows[1..], room, r);
      assert (rows + [r])[1..] == rows[1..] + [r];
    }
  }

  lemma {:induction false} BeforeLast(rows: seq<Row>, cursor: int, r: Row)
    ensures Before(rows + [r], cursor) == Before(rows, cursor) + if r.at < cursor then [r] else []
  {
    if rows != [] {
      BeforeLast(rows[1..], cursor, r);
      assert (rows + [r])[1..] == rows[1..] + [r];
    }
  }

  lemma MatchingLast(rows: seq<Row>, r: Row, room: Bytes, cut: int)
    ensures |Matching(rows + [r], room, cut)|
         == |Matching(rows, room, cut)| + if r.room == room && r.at < cut then 1 else 0
  {
    assert Matching(rows + [r], room, cut)
        == Matching(rows, room, cut) + if r.room == room && r.at < cut then {|rows|} else {};
    assert |rows| !in Matching(rows, room, cut);
  }

  lemma {:induction false} SoughtSize(table: seq<Row>, room: Bytes, cut: int)
    ensures |Before(InRoom(table, room), cut)| == |Matching(table, room, cut)|
  {
    if table == [] {
      assert Matching(table, room, cut) == {};
    } else {
      hide Before, InRoom, Matching;
      var front, last := table[..|table| - 1], table[|table| - 1];
      assert table == front + [last];
      SoughtSize(front, room, cut);
      InRoomLast(front, room, last);
      MatchingLast(front, last, room, cut);
      if last.room == room {
        BeforeLast(InRoom(front, room), cut, last);
      } else {
        assert InRoom(front, room) + [] == InRoom(front, room);
      }
    }
  }

  /** One query, for any row r: with n the requested limit if it is from 1 to 100 and else 50, and cut the given
      cursor or else 24 hours from now, it returns the n newest of the room's rows before the cut, or all if there
      are fewer. */
  lemma PageIs(table: seq<Row>, room: Bytes, limit: int, before: Option<int>, now: int, r: Row)
    ensures
      var page := ListByRoom(table, room, limit, before, now);
      var n := if 1 <= limit <= 100 then limit else 50;
      var cut := if before.Some? then before.value else now + 24 * 60 * 60 * 1000000000;
      var matching := |Matching(table, room, cut)|;
      && |page| == (if n < matching then n else matching)
      && multiset(page)[r] <= (if r.room == room && r.at < cut then multiset(table)[r] else 0)
      && (forall i, j :: 0 <= i < j < |page| ==> page[i].at >= page[j].at)
      && (r.room == room && r.at < cut && multiset(page)[r] < multiset(table)[r] ==>
            forall i :: 0 <= i < |page| ==> page[i].at >= r.at)
  {
    var cut := Cursor(before, now);
    SoughtIs(table, room, cut, r);
    SoughtSize(table, room, cut);
    NewestSize(Before(InRoom(table, room), cut));
    TakeIs(Sought(table, room, cut), Clamp(limit), r);
    hide Matching, Before, InRoom, Newest, Take, Descending;
  }

  lemma TakeIs(all: seq<Row>, n: nat, r: Row)
    requires Descending(all)
    ensures
      var page := Take(all, n);
      && |page| == (if n < |all| then n else |all|)
      && multiset(page)[r] <= multiset(all)[r]
      && (forall i, j :: 0 <= i < j < |page| ==> page[i].at >= page[j].at)
      && (multiset(page)[r] < multiset(all)[r] ==> forall i :: 0 <= i < |page| ==> page[i].at >= r.at)
  {
    if |all| > n {
      assert all == all[..n] + all[n..];
      assert multiset(all)[r] == multiset(all[..n])[r] + multiset(all[n..])[r];
      if multiset(all[n..])[r] > 0 {
        assert r in all[n..];
        var k :| n <= k < |all| && all[k] == r;
      }
    }
  }

  lemma NewestSize(rows: seq<Row>)
    ensures |Newest(rows)| == |rows|
  {
    NewestSorted(rows);
    assert |multiset(Newest(rows))| == |multiset(rows)|;
  }

  // ---------- moving the cursor ----------

  lemma {:induction false} BeforeTwice(rows: seq<Row>, early: int, late: int)
    requires early <= late
    ensures Before(Before(rows, late), early) == Before(rows, early)
  {
    if rows != [] {
      BeforeTwice(rows[1..], early, late);
    }
  }

  lemma {:induction false} BeforeInsert(r: Row, rows: seq<Row>, cursor: int)
    requires Descending(rows)
    ensures Before(Insert(r, rows), cursor)
         == if r.at < cursor then Insert(r, Before(rows, cursor)) else Before(rows, cursor)
  {
    if rows != [] {
      if r.at < rows[0].at {
        BeforeInsert(r, rows[1..], cursor);
        assert Insert(r, rows)[1..] == Insert(r, rows[1..]);
      } else {
        assert Insert(r, rows)[1..] == rows;
      }
    }
  }

  /** Cutting off and sorting can be exchanged. */
  lemma {:induction false} BeforeNewest(rows: seq<Row>, cursor: int)
    ensures Before(Newest(rows), cursor) == Newest(Before(rows, cursor))
  {
    if rows != [] {
      BeforeNewest(rows[1..], cursor);
      NewestSorted(rows[1..]);
      BeforeInsert(rows[0], Newest(rows[1..]), cursor);
    }
  }

  /** In descending order the rows before a cursor are a tail. */
  lemma {:induction false} BeforeIsTail(rows: seq<Row>, cursor: int, n: nat)
    requires Descending(rows) && n <= |rows|
    requires forall i :: 0 <= i < n ==> rows[i].at >= cursor
    requires n < |rows| ==> rows[n].at < cursor
    ensures Before(rows, cursor) == rows[n..]
  {
    if n > 0 {
      BeforeIsTail(rows[1..], cursor, n - 1);
    } else if rows != [] {
      BeforeIsTail(rows[1..], cursor, 0);
    }
  }

  lemma NextSought(table: seq<Row>, room: Bytes, early: int, late: int)
    requires early <= late
    ensures Sought(table, room, early) == Before(Sought(table, room, late), early)
  {
    BeforeTwice(InRoom(table, room), early, late);
    BeforeNewest(Before(InRoom(table, room), late), early);
  }

  lemma {:induction false} BeforeShorter(rows: seq<Row>, cursor: int)
    ensures |Before(rows, cursor)| <= |rows|
    ensures (exists r :: r in rows && r.at >= cursor) ==> |Before(rows, cursor)| < |rows|
  {
    if rows != [] {
      BeforeShorter(rows[1..], cursor);
      assert rows == [rows[0]] + rows[1..];
    }
  }

  // ---------- paging ----------

  lemma PageShrinks(table: seq<Row>, room: Bytes, n: nat, cursor: int)
    requires n > 0 && Sought(table, room, cursor) != []
    ensures
      var page := Take(Sought(table, room, cursor), n);
      var next := page[|page| - 1].at;
      page != [] && next < cursor && |Sought(table, room, next)| < |Sought(table, room, cursor)|
  {
    var all := Sought(table, room, cursor);
    var page := Take(all, n);
    var last := page[|page| - 1];
    assert last in multiset(all);
    SoughtIs(table, room, cursor, last);
    NextSought(table, room, last.at, cursor);
    BeforeShorter(all, last.at);
  }

  /** Everything a client gets that asks again and again, with the last row's time as the next cursor, until a page
      comes back empty. */
  function Pages(table: seq<Row>, room: Bytes, n: nat, cursor: int): seq<Row>
    requires n > 0
    decreases |Sought(table, room, cursor)|
  {
    var page := Take(Sought(table, room, cursor), n);
    if page == [] then []
    else
      PageShrinks(table, room, n, cursor);
      page + Pages(table, room, n, page[|page| - 1].at)
  }

  /** No page ends between two rows of the same time. */
  predicate CleanEdges(rows: seq<Row>, n: nat)
    requires n > 0
    decreases |rows|
  {
    |rows| <= n || (rows[n - 1].at != rows[n].at && CleanEdges(rows[n..], n))
  }

  lemma {:induction false} PagesNoLonger(table: seq<Row>, room: Bytes, n: nat, cursor: int)
    requires n > 0
    ensures |Pages(table, room, n, cursor)| <= |Sought(table, room, cursor)|
    decreases |Sought(table, room, cursor)|
  {
    var all := Sought(table, room, cursor);
    var page := Take(all, n);
    if page != [] {
      var next := page[|page| - 1].at;
      PageShrinks(table, room, n, cursor);
      PagesNoLonger(table, room, n, next);
      PageThenRest(table, room, n, cursor);
    }
  }

  /** After a page come the rows behind it, less those that share the time of its last row. */
  lemma PageThenRest(table: seq<Row>, room: Bytes, n: nat, cursor: int)
    requires n > 0 && Sought(table, room, cursor) != []
    ensures
      var all := Sought(table, room, cursor);
      var page := Take(all, n);
      var rest := Sought(table, room, page[|page| - 1].at);
      && |page| + |rest| <= |all|
      && (|all| <= n ==> rest == [])
      && (|all| > n ==> (rest == all[n..] <==> all[n - 1].at != all[n].at))
      && (|all| > n && all[n - 1].at == all[n].at ==> |page| + |rest| < |all|)
  {
    var all := Sought(table, room, cursor);
    var page := Take(all, n);
    var next := page[|page| - 1].at;
    hide Sought, Descending, Before;
    SoughtIs(table, room, cursor, all[0]);
    PageShrinks(table, room, n, cursor);
    NextSought(table, room, next, cursor);
    TailAfter(all, |page|);
  }

  lemma TailAfter(all: seq<Row>, n: nat)
    requires Descending(all) && 0 < n <= |all|
    ensures
      var rest := Before(all, all[n - 1].at);
      && n + |rest| <= |all|
      && (n < |all| && all[n].at != all[n - 1].at ==> rest == all[n..])
      && (n < |all| && all[n].at == all[n - 1].at ==> n + |rest| < |all|)
      && (n == |all| ==> rest == [])
  {
    var next := all[n - 1].at;
    var m := n;
    while m < |all| && all[m].at == next
      invariant n <= m <= |all|
      invariant forall i :: 0 <= i < m ==> all[i].at >= next
      invariant m > n ==> all[n].at == next
    {
      m := m + 1;
    }
    BeforeIsTail(all, next, m);
  }

  /** Paging returns every row before the first cursor exactly once and newest first, if and only if no page ends
      between two rows of the same time; otherwise it skips rows. */
  lemma {:induction false} PagingIsComplete(table: seq<Row>, room: Bytes, n: nat, cursor: int)
    requires n > 0
    ensures Pages(table, room, n, cursor) == Sought(table, room, cursor) <==> CleanEdges(Sought(table, room, cursor), n)
    decreases |Sought(table, room, cursor)|
  {
    var all := Sought(table, room, cursor);
    var page := Take(all, n);
    if page != [] {
      var next := page[|page| - 1].at;
      PageShrinks(table, room, n, cursor);
      PageThenRest(table, room, n, cursor);
      PagingIsComplete(table, room, n, next);
      PagesNoLonger(table, room, n, next);
      if |all| > n {
        assert all == all[..n] + all[n..];
        PagesSplit(page, Pages(table, room, n, next), all, n);
      }
    }
  }

  lemma PagesSplit(page: seq<Row>, rest: seq<Row>, all: seq<Row>, n: nat)
    requires n <= |all| && page == all[..n]
    ensures page + rest == all <==> rest == all[n..]
  {
  }

  /** With distinct times in the room, the requested limit does not matter. */
  lemma {:induction false} DistinctTimesAreClean(rows: seq<Row>, n: nat)
    requires n > 0 && forall i, j :: 0 <= i < j < |rows| ==> rows[i].at != rows[j].at
    ensures CleanEdges(rows, n)
    decreases |rows|
  {
    if |rows| > n {
      DistinctTimesAreClean(rows[n..], n);
    }
  }

  /** What a client gets by calling the repository again and again, with the last row's time as the next cursor, until
      a call returns nothing. */
  function ReadAll(table: seq<Row>, room: Bytes, limit: int, before: Option<int>, now: int): seq<Row>
    decreases |Sought(table, room, Cursor(before, now))|
  {
    var page := ListByRoom(table, room, limit, before, now);
    if page == [] then []
    else
      PageShrinks(table, room, Clamp(limit), Cursor(before, now));
      page + ReadAll(table, room, limit, Some(page[|page| - 1].at), now)
  }

  lemma {:induction false} ReadAllIsPages(table: seq<Row>, room: Bytes, limit: int, before: Option<int>, now: int)
    ensures ReadAll(table, room, limit, before, now) == Pages(table, room, Clamp(limit), Cursor(before, now))
    decreases |Sought(table, room, Cursor(before, now))|
  {
    var page := ListByRoom(table, room, limit, before, now);
    if page != [] {
      PageShrinks(table, room, Clamp(limit), Cursor(before, now));
      ReadAllIsPages(table, room, limit, Some(page[|page| - 1].at), now);
    }
  }

  /** With distinct times, reading page by page returns each of the room's rows before the first cursor exactly as often
      as the table holds it and no other row, newest first, whatever limit is requested. */
  lemma ReadsWholeHistory(table: seq<Row>, room: Bytes, limit: int, before: Option<int>, now: int, r: Row)
    requires
      var all := Sought(table, room, Cursor(before, now));
      forall i, j :: 0 <= i < j < |all| ==> all[i].at != all[j].at
    ensures
      var rows := ReadAll(table, room, limit, before, now);
      var cut := if before.Some? then before.value else now + 24 * 60 * 60 * 1000000000;
      && multiset(rows)[r] == (if r.room == room && r.at < cut then multiset(table)[r] else 0)
      && forall i, j :: 0 <= i < j < |rows| ==> rows[i].at > rows[j].at
  {
    var cut := Cursor(before, now);
    var all := Sought(table, room, cut);
    ReadAllIsPages(table, room, limit, before, now);
    DistinctTimesAreClean(all, Clamp(limit));
    PagingIsComplete(table, room, Clamp(limit), cut);
    SoughtIs(table, room, cut, r);
  }

  /** Three rows of one time and pages of two: the third row is never returned. */
  lemma TieIsSkipped(room: Bytes, at: int)
    ensures
      var row := (id: Bytes) => P.Record(id, room, "u", "hi", at);
      Pages([row("a"), row("b"), row("c")], room, 2, at + 1) == [row("a"), row("b")]
  {
    var a, b := P.Record("a", room, "u", "hi", at), P.Record("b", room, "u", "hi", at);
    var c := P.Record("c", room, "u", "hi", at);
    var table := [a, b, c];
    assert table[1..] == [b, c] && [b, c][1..] == [c] && [c][1..] == [];
    assert InRoom([c], room) == [c];
    assert InRoom([b, c], room) == [b, c];
    assert InRoom(table, room) == table;
    assert Before([c], at + 1) == [c];
    assert Before([b, c], at + 1) == [b, c];
    assert Before(table, at + 1) == table;
    assert Newest([c]) == [c];
    assert Newest([b, c]) == [b, c];
    assert Newest(table) == table;
    assert Before([c], at) == [];
    assert Before([b, c], at) == [];
    assert Before(table, at) == [];
    assert Sought(table, room, at) == [];
    assert Pages(table, room, 2, at) == [];
  }
}
