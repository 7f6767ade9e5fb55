/** Keyset paging of the dashboard (dashboard/lib/db.py and dashboard/home.py). */
module Paging {
  import opened Sequences

  datatype Key = Key(ts: int, id: int)

  datatype Row = Row(ts: int, id: int, data: string) {
    function At(): Key {
      Key(ts, id)
    }
  }

  const BUFFER_SIZE: nat := 50
  const START := Key(0, 0)

  /** The condition of the query: newer, or as new with a larger id. */
  predicate Less(a: Key, b: Key) {
    b.ts > a.ts || (b.ts == a.ts && b.id > a.id)
  }

  /** Ids are the primary key. */
  ghost predicate Keyed(rows: set<Row>) {
    forall r, s :: r in rows && s in rows && r.id == s.id ==> r == s
  }

  function Above(table: set<Row>, cursor: Key): set<Row> {
    set r | r in table && Less(cursor, r.At())
  }

  // ----- ordering -----

  ghost predicate Increasing(s: seq<Row>) {
    forall i, j :: 0 <= i < j < |s| ==> Less(s[i].At(), s[j].At())
  }

  /** `s` lists exactly the rows of the set, in (ts, id) order. */
  ghost predicate Lists(s: seq<Row>, rows: set<Row>) {
    Increasing(s) && forall r :: r in s <==> r in rows
  }

  ghost predicate IsFirst(m: Row, rows: set<Row>) {
    m in rows && forall r :: r in rows && r != m ==> Less(m.At(), r.At())
  }

  lemma {:induction false} HasFirst(rows: set<Row>)
    requires rows != {} && Keyed(rows)
    ensures exists m :: IsFirst(m, rows)
    decreases |rows|
  {
    var x :| x in rows;
    var rest := rows - {x};
    if rest == {} {
      assert rows == {x};
      assert IsFirst(x, rows);
    } else {
      HasFirst(rest);
      var y :| IsFirst(y, rest);
      var m := if Less(x.At(), y.At()) then x else y;
      forall r | r in rows && r != m ensures Less(m.At(), r.At()) {
        assert r == x || r in rest;
      }
      assert IsFirst(m, rows);
    }
  }

  /** The rows of a table in (ts, id) order. */
  ghost function Ordered(rows: set<Row>): (s: seq<Row>)
    requires Keyed(rows)
    ensures Lists(s, rows)
    decreases |rows|
  {
    if rows == {} then []
    else
      HasFirst(rows);
      var first :| IsFirst(first, rows);
      var rest := Ordered(rows - {first});
      assert forall r :: r in rows <==> r == first || r in rows - {first};
      [first] + rest
  }

  lemma ListsEmpty(s: seq<Row>, rows: set<Row>)
    requires Lists(s, rows)
    ensures s == [] <==> rows == {}
  {
    if s != [] {
      assert s[0] in rows;
    }
    if rows != {} {
      var r :| r in rows;
      assert r in s;
    }
  }

  /** There is only one listing of a set. */
  lemma {:induction false} ListingUnique(a: seq<Row>, b: seq<Row>, rows: set<Row>)
    requires Lists(a, rows) && Lists(b, rows)
    ensures a == b
    decreases |a|
  {
    ListsEmpty(a, rows);
    ListsEmpty(b, rows);
    if a != [] {
      assert a[0] in b && b[0] in a;
      var i :| 0 <= i < |b| && b[i] == a[0];
      var j :| 0 <= j < |a| && a[j] == b[0];
      assert i == 0 && j == 0;
      TailLists(a, rows);
      TailLists(b, rows);
      ListingUnique(a[1..], b[1..], rows - {a[0]});
    }
  }

  lemma TailLists(s: seq<Row>, rows: set<Row>)
    requires Lists(s, rows) && s != []
    ensures Lists(s[1..], rows - {s[0]})
  {
    forall r ensures r in s[1..] <==> r in rows - {s[0]} {
      if r in s[1..] {
        var i :| 0 <= i < |s[1..]| && s[1..][i] == r;
        assert s[i + 1] == r && Less(s[0].At(), s[i + 1].At());
      }
      if r in rows - {s[0]} {
        assert r in s;
        var i :| 0 <= i < |s| && s[i] == r;
        assert s[1..][i - 1] == r;
      }
    }
  }

  // ----- one query, one refresh -----

  /** The first `n` elements, or all of them. */
  function Take<T>(s: seq<T>, n: nat): seq<T> {
    if |s| <= n then s else s[..n]
  }

  /** The rows above the cursor, in order, at most `limit` of them. */
  ghost function Fetch(table: set<Row>, cursor: Key, limit: nat): seq<Row>
    requires Keyed(table)
  {
    Take(Ordered(Above(table, cursor)), limit)
  }

  /** A page, in terms of timestamps and ids: rows after the cursor, ascending, at most `limit` of them,
      and nothing after the cursor is left out unless it comes after a full page. */
  lemma {:induction false} PageIs(table: set<Row>, cursor: Key, limit: nat)
    requires Keyed(table)
    ensures var page := Fetch(table, cursor, limit);
            && |page| <= limit
            && (forall r :: r in page ==> r in table && (r.ts > cursor.ts || (r.ts == cursor.ts && r.id > cursor.id)))
            && (forall i, j :: 0 <= i < j < |page| ==>
                  page[i].ts < page[j].ts || (page[i].ts == page[j].ts && page[i].id < page[j].id))
            && (forall r :: r in table && (r.ts > cursor.ts || (r.ts == cursor.ts && r.id > cursor.id)) && r !in page ==>
                  |page| == limit
                  && forall q :: q in page ==> q.ts < r.ts || (q.ts == r.ts && q.id < r.id))
  {
    var rows := Above(table, cursor);
    var all, page := Ordered(rows), Fetch(table, cursor, limit);
    forall r | r in page ensures r in all {
    }
    forall i, j | 0 <= i < j < |page|
      ensures page[i].ts < page[j].ts || (page[i].ts == page[j].ts && page[i].id < page[j].id)
    {
      assert page[i] == all[i] && page[j] == all[j] && Less(all[i].At(), all[j].At());
    }
    forall r | r in rows
      ensures r in page || |page| == limit
      ensures r in page || forall q :: q in page ==> q.ts < r.ts || (q.ts == r.ts && q.id < r.id)
    {
      assert r in all;
      var k :| 0 <= k < |all| && all[k] == r;
      LeftOut(all, limit, k);
    }
  }

  lemma LeftOut(all: seq<Row>, limit: nat, k: nat)
    requires Increasing(all) && k < |all|
    ensures all[k] in Take(all, limit)
            || (|Take(all, limit)| == limit && forall q :: q in Take(all, limit) ==> Less(q.At(), all[k].At()))
  {
    var page := Take(all, limit);
    if k < |page| {
      assert page[k] == all[k];
    } else {
      forall q | q in page ensures Less(q.At(), all[k].At()) {
        var i :| 0 <= i < |page| && page[i] == q;
        assert all[i] == q;
      }
    }
  }

  /** A viewer: cursor, display buffer, and everything fetched so far. */
  datatype Session = Session(cursor: Key, buffer: seq<Row>, fetched: seq<Row>)

  function Open(): Session {
    Session(START, [], [])
  }

  function Receive(s: Session, page: seq<Row>): Session {
    if page == [] then s
    else Session(page[|page| - 1].At(), LastN(s.buffer + page, BUFFER_SIZE), s.fetched + page)
  }

  class Dashboard {
    var lastTs: int
    var lastId: int
    var buffer: seq<Row>
    ghost var fetched: seq<Row>

    ghost function View(): Session
      reads this
    {
      Session(Key(lastTs, lastId), buffer, fetched)
    }

    constructor ()
      ensures View() == Open()
    {
      lastTs, lastId, buffer, fetched := 0, 0, [], [];
    }

    /** One refresh with the page the query returned. */
    method Refresh(page: seq<Row>)
      modifies this
      ensures View() == Receive(old(View()), page)
    {
      if page != [] {
        var last := page[|page| - 1];
        lastTs, lastId := last.ts, last.id;
        buffer := buffer + page;
        if |buffer| > BUFFER_SIZE {
          buffer := buffer[|buffer| - BUFFER_SIZE..];
        }
        fetched := fetched + page;
      }
    }
  }

  // ----- paging through a table that does not change -----

  /** One refresh against the table. */
  ghost function Refreshed(s: Session, table: set<Row>, limit: nat): Session
    requires Keyed(table)
  {
    Receive(s, Fetch(table, s.cursor, limit))
  }

  ghost function PollStatic(table: set<Row>, limit: nat, n: nat): Session
    requires Keyed(table)
  {
    if n == 0 then Open()
    else Refreshed(PollStatic(table, limit, n - 1), table, limit)
  }

  /** What lies above the m-th row of a listing is the rest of the listing. */
  lemma AboveRow(table: set<Row>, all: seq<Row>, m: nat)
    requires Keyed(table) && Lists(all, Above(table, START)) && 0 < m <= |all|
    ensures Ordered(Above(table, all[m - 1].At())) == all[m..]
  {
    var cursor := all[m - 1].At();
    assert all[m - 1] in Above(table, START);
    forall r ensures r in all[m..] <==> r in Above(table, cursor) {
      if r in all[m..] {
        var i :| 0 <= i < |all[m..]| && all[m..][i] == r;
        assert r == all[m + i] && r in all;
      }
      if r in Above(table, cursor) {
        assert r in Above(table, START);
        assert r in all;
        var i :| 0 <= i < |all| && all[i] == r;
        assert i >= m;
        assert all[m..][i - m] == r;
      }
    }
    ListingUnique(Ordered(Above(table, cursor)), all[m..], Above(table, cursor));
  }

  lemma TakeMore<T>(all: seq<T>, k: nat, limit: nat)
    ensures Take(all, k) + Take(all[|Take(all, k)|..], limit) == Take(all, k + limit)
  {
  }

  /** The viewer has the first `k` rows of the listing, or all, and its cursor is at the last. */
  ghost predicate HasFetched(all: seq<Row>, s: Session, k: nat) {
    && s.fetched == Take(all, k)
    && s.cursor == if s.fetched == [] then START else s.fetched[|s.fetched| - 1].At()
  }

  /** The next page is the next part of the listing. */
  lemma NextPage(table: set<Row>, all: seq<Row>, s: Session, limit: nat, k: nat)
    requires Keyed(table) && Lists(all, Above(table, START)) && HasFetched(all, s, k)
    ensures Fetch(table, s.cursor, limit) == Take(all[|s.fetched|..], limit)
  {
    var m := |s.fetched|;
    if m > 0 {
      AboveRow(table, all, m);
    } else {
      ListingUnique(Ordered(Above(table, START)), all, Above(table, START));
    }
    assert Ordered(Above(table, s.cursor)) == all[m..];
  }

  lemma ReceiveNext(all: seq<Row>, s: Session, limit: nat, k: nat)
    requires HasFetched(all, s, k)
    ensures HasFetched(all, Receive(s, Take(all[|s.fetched|..], limit)), k + limit)
  {
    TakeMore(all, k, limit);
    assert s.fetched + [] == s.fetched;
  }

  lemma RefreshedNext(table: set<Row>, all: seq<Row>, s: Session, limit: nat, k: nat)
    requires Keyed(table) && Lists(all, Above(table, START)) && HasFetched(all, s, k)
    ensures HasFetched(all, Refreshed(s, table, limit), k + limit)
  {
    NextPage(table, all, s, limit, k);
    ReceiveNext(all, s, limit, k);
  }

  /** How many rows `n` pages can hold. */
  function Capacity(limit: nat, n: nat): nat {
    if n == 0 then 0 else Capacity(limit, n - 1) + limit
  }

  lemma {:induction false} CapacityIs(limit: nat, n: nat)
    ensures Capacity(limit, n) == n * limit
    ensures limit >= 1 ==> Capacity(limit, n) >= n
  {
    if n > 0 {
      CapacityIs(limit, n - 1);
    }
  }

  /** After `n` polls exactly the first n * limit rows above the start have been fetched, in order;
      so every row above the start arrives exactly once. */
  lemma {:induction false} StaticPaging(table: set<Row>, all: seq<Row>, limit: nat, n: nat)
    requires Keyed(table) && Lists(all, Above(table, START))
    ensures HasFetched(all, PollStatic(table, limit, n), Capacity(limit, n))
  {
    if n == 0 {
      assert all[..0] == [];
    } else {
      StaticPaging(table, all, limit, n - 1);
      RefreshedNext(table, all, PollStatic(table, limit, n - 1), limit, Capacity(limit, n - 1));
    }
  }

  /** With a limit of at least 1, as many polls as there are rows fetch them all, and every further
      page is empty. */
  lemma {:induction false} StaticPagingComplete(table: set<Row>, all: seq<Row>, limit: nat, n: nat)
    requires Keyed(table) && Lists(all, Above(table, START)) && limit >= 1 && n >= |all|
    ensures PollStatic(table, limit, n).fetched == all
    ensures Fetch(table, PollStatic(table, limit, n).cursor, limit) == []
  {
    StaticPaging(table, all, limit, n);
    CapacityIs(limit, n);
    NextPage(table, all, PollStatic(table, limit, n), limit, Capacity(limit, n));
  }

  // ----- paging while rows are being inserted -----

  /** The table at each poll: rows are only added. */
  ghost predicate Growing(tables: seq<set<Row>>) {
    && (forall i :: 0 <= i < |tables| ==> Keyed(tables[i]))
    && (forall i, j :: 0 <= i <= j < |tables| ==> tables[i] <= tables[j])
  }

  ghost function Poll(tables: seq<set<Row>>, limit: nat): Session
    requires Growing(tables)
  {
    if tables == [] then Open()
    else Refreshed(Poll(tables[..|tables| - 1], limit), tables[|tables| - 1], limit)
  }

  ghost function TableBefore(tables: seq<set<Row>>): set<Row> {
    if |tables| < 2 then {} else tables[|tables| - 2]
  }

  /** Rows that were inserted at or below the cursor the viewer then had. */
  ghost function Late(tables: seq<set<Row>>, limit: nat): set<Row>
    requires Growing(tables)
  {
    if tables == [] then {}
    else
      var past := tables[..|tables| - 1];
      var cursor := Poll(past, limit).cursor;
      Late(past, limit)
      + (set r | r in tables[|tables| - 1] - TableBefore(tables) && !Less(cursor, r.At()))
  }

  /** Every row of the table is in exactly one of three places: fetched, still ahead of the cursor,
      or inserted too late. */
  ghost predicate Partition(s: Session, table: set<Row>, late: set<Row>) {
    && Increasing(s.fetched)
    && s.cursor == (if s.fetched == [] then START else s.fetched[|s.fetched| - 1].At())
    && (forall r :: r in s.fetched ==> r in table && !Less(s.cursor, r.At()) && r !in late)
    && (forall r :: r in table ==> r in s.fetched || Less(s.cursor, r.At()) || r in late)
    && (forall r :: r in late ==> r in table && !Less(s.cursor, r.At()))
  }

  /** The first part of a listing: increasing, and everything left out lies above its last row. */
  lemma TakeFacts(all: seq<Row>, rows: set<Row>, limit: nat)
    requires Lists(all, rows)
    ensures var page := Take(all, limit);
            && Increasing(page)
            && (forall r :: r in page ==> r in rows)
            && (page != [] ==>
                  var next := page[|page| - 1].At();
                  && (forall r :: r in page ==> !Less(next, r.At()))
                  && (forall r :: r in rows ==> r in page || Less(next, r.At())))
  {
    var page := Take(all, limit);
    forall r | r in page ensures r in all {
    }
    if page != [] {
      forall r | r in rows ensures r in page || Less(page[|page| - 1].At(), r.At()) {
        assert r in all;
        var i :| 0 <= i < |all| && all[i] == r;
        if i < |page| {
          assert page[i] == r;
        }
      }
    }
  }

  /** A page moves the cursor over exactly its own rows. */
  lemma PageFacts(table: set<Row>, cursor: Key, limit: nat)
    requires Keyed(table)
    ensures var page := Fetch(table, cursor, limit);
            && Increasing(page)
            && (forall r :: r in page ==> r in table && Less(cursor, r.At()))
            && (page != [] ==>
                  var next := page[|page| - 1].At();
                  && Less(cursor, next)
                  && (forall r :: r in page ==> !Less(next, r.At()))
                  && (forall r :: r in table && Less(cursor, r.At()) && r !in page ==> Less(next, r.At())))
  {
    TakeFacts(Ordered(Above(table, cursor)), Above(table, cursor), limit);
    var page := Fetch(table, cursor, limit);
    if page != [] {
      assert page[|page| - 1] in page;
    }
  }

  lemma AppendIncreasing(fetched: seq<Row>, page: seq<Row>, cursor: Key)
    requires Increasing(fetched) && Increasing(page)
    requires forall r :: r in fetched ==> !Less(cursor, r.At())
    requires forall r :: r in page ==> Less(cursor, r.At())
    ensures Increasing(fetched + page)
  {
    var all := fetched + page;
    forall i, j | 0 <= i < j < |all| ensures Less(all[i].At(), all[j].At()) {
      if i < |fetched| <= j {
        assert all[i] in fetched && all[j] in page;
      }
    }
  }

  /** What one refresh does to a single row of the table. */
  lemma RowMoves(s: Session, table: set<Row>, limit: nat, r: Row)
    requires Keyed(table) && r in table
    ensures var page := Fetch(table, s.cursor, limit);
            var s' := Receive(s, page);
            && (Less(s.cursor, r.At()) ==> (r in page <==> !Less(s'.cursor, r.At())))
            && (!Less(s.cursor, r.At()) ==> r !in page && !Less(s'.cursor, r.At()))
  {
    PageFacts(table, s.cursor, limit);
  }

  lemma ReceivePartition(s: Session, old': set<Row>, table: set<Row>, late: set<Row>, limit: nat)
    requires Partition(s, old', late) && old' <= table && Keyed(table)
    ensures Partition(Refreshed(s, table, limit), table,
                      late + (set r | r in table - old' && !Less(s.cursor, r.At())))
  {
    var page := Fetch(table, s.cursor, limit);
    var s' := Receive(s, page);
    PageFacts(table, s.cursor, limit);
    AppendIncreasing(s.fetched, page, s.cursor);
    assert forall r :: r in s'.fetched <==> r in s.fetched || r in page;
    forall r | r in table
      ensures Less(s.cursor, r.At()) ==> (r in page <==> !Less(s'.cursor, r.At()))
      ensures !Less(s.cursor, r.At()) ==> r !in page && !Less(s'.cursor, r.At())
    {
      RowMoves(s, table, limit, r);
    }
  }

  /** No row is ever fetched twice; a row of the table is missed for good exactly when it was
      inserted at or below the cursor; every other row is fetched or still ahead. The buffer shows
      the last 50 rows fetched. */
  lemma {:induction false} LivePaging(tables: seq<set<Row>>, limit: nat)
    requires Growing(tables)
    ensures Partition(Poll(tables, limit), if tables == [] then {} else tables[|tables| - 1], Late(tables, limit))
    ensures Poll(tables, limit).buffer == LastN(Poll(tables, limit).fetched, 50)
  {
    if tables != [] {
      var past := tables[..|tables| - 1];
      LivePaging(past, limit);
      var s := Poll(past, limit);
      var table := tables[|tables| - 1];
      ReceivePartition(s, TableBefore(tables), table, Late(past, limit), limit);
      LastNAppend(s.fetched, Fetch(table, s.cursor, limit), BUFFER_SIZE);
    }
  }

  // ----- after the last insert -----

  /** The polls so far, then `n` more of the same table. */
  ghost function Still(tables: seq<set<Row>>, n: nat): (r: seq<set<Row>>)
    requires tables != []
    ensures r != [] && r[|r| - 1] == tables[|tables| - 1]
  {
    if n == 0 then tables else Still(tables, n - 1) + [tables[|tables| - 1]]
  }

  lemma {:induction false} StillGrowing(tables: seq<set<Row>>, n: nat)
    requires tables != [] && Growing(tables)
    ensures Growing(Still(tables, n))
  {
    if n > 0 {
      StillGrowing(tables, n - 1);
      var past, table := Still(tables, n - 1), tables[|tables| - 1];
      forall i | 0 <= i < |past| ensures past[i] <= table {
        assert past[i] <= past[|past| - 1];
      }
    }
  }

  /** With a limit of at least 1 a page brings the cursor past some of what was ahead of it, or there
      was nothing ahead. */
  lemma PageShrinks(table: set<Row>, s: Session, limit: nat)
    requires Keyed(table) && limit >= 1
    ensures var ahead, left := Above(table, s.cursor), Above(table, Refreshed(s, table, limit).cursor);
            |left| < |ahead| || (left == ahead == {})
  {
    var page, ahead := Fetch(table, s.cursor, limit), Above(table, s.cursor);
    var left := Above(table, Refreshed(s, table, limit).cursor);
    PageFacts(table, s.cursor, limit);
    ListsEmpty(Ordered(ahead), ahead);
    if page != [] {
      var last := page[|page| - 1];
      assert last in page;
      assert last in ahead && last !in left && left <= ahead;
      SmallerSet(left, ahead, last);
    }
  }

  lemma SmallerSet(a: set<Row>, b: set<Row>, x: Row)
    requires a <= b && x in b && x !in a
    ensures |a| < |b|
  {
    SubsetSize(a, b - {x});
  }

  lemma {:induction false} SubsetSize(a: set<Row>, b: set<Row>)
    requires a <= b
    ensures |a| <= |b|
  {
    if a != {} {
      var x :| x in a;
      SubsetSize(a - {x}, b - {x});
    }
  }

  /** One more poll of the last table. */
  lemma PollMore(past: seq<set<Row>>, all: seq<set<Row>>, limit: nat)
    requires past != [] && all == past + [past[|past| - 1]] && Growing(past) && Growing(all)
    ensures Poll(all, limit) == Refreshed(Poll(past, limit), past[|past| - 1], limit)
    ensures Late(all, limit) == Late(past, limit)
  {
    assert all[..|all| - 1] == past && TableBefore(all) == past[|past| - 1];
  }

  /** How many rows of the last table are ahead of the cursor after its poll. */
  ghost function Ahead(tables: seq<set<Row>>, limit: nat): nat
    requires tables != [] && Growing(tables)
  {
    |Above(tables[|tables| - 1], Poll(tables, limit).cursor)|
  }

  lemma AheadShrinks(past: seq<set<Row>>, all: seq<set<Row>>, limit: nat)
    requires past != [] && all == past + [past[|past| - 1]] && Growing(past) && Growing(all) && limit >= 1
    ensures Ahead(all, limit) < Ahead(past, limit) || Ahead(all, limit) == Ahead(past, limit) == 0
  {
    PollMore(past, all, limit);
    PageShrinks(past[|past| - 1], Poll(past, limit), limit);
  }

  /** What is still ahead after `n` more polls. */
  lemma {:induction false} StillShrinks(tables: seq<set<Row>>, limit: nat, n: nat)
    requires tables != [] && Growing(tables) && Growing(Still(tables, n)) && limit >= 1
    ensures Ahead(Still(tables, n), limit) == 0 || Ahead(Still(tables, n), limit) + n <= Ahead(tables, limit)
  {
    if n > 0 {
      StillGrowing(tables, n - 1);
      StillShrinks(tables, limit, n - 1);
      AheadShrinks(Still(tables, n - 1), Still(tables, n), limit);
    }
  }

  /** Nothing more is inserted too late. */
  lemma {:induction false} StillLate(tables: seq<set<Row>>, limit: nat, n: nat)
    requires tables != [] && Growing(tables) && Growing(Still(tables, n))
    ensures Late(Still(tables, n), limit) == Late(tables, limit)
  {
    if n > 0 {
      StillGrowing(tables, n - 1);
      StillLate(tables, limit, n - 1);
      PollMore(Still(tables, n - 1), Still(tables, n), limit);
    }
  }

  /** Once inserts stop, a live session catches up: after as many polls as there were rows ahead, it
      has fetched every row of the table but those that were inserted too late. */
  lemma {:induction false} CatchesUp(tables: seq<set<Row>>, limit: nat, n: nat)
    requires tables != [] && Growing(tables) && limit >= 1
    requires n >= Ahead(tables, limit)
    ensures Growing(Still(tables, n))
    ensures forall r :: r in tables[|tables| - 1] ==>
              (r in Poll(Still(tables, n), limit).fetched <==> r !in Late(tables, limit))
  {
    StillGrowing(tables, n);
    StillShrinks(tables, limit, n);
    StillLate(tables, limit, n);
    LivePaging(Still(tables, n), limit);
    var table, s := tables[|tables| - 1], Poll(Still(tables, n), limit);
    assert Above(table, s.cursor) == {};
    forall r | r in table ensures !Less(s.cursor, r.At()) {
      assert r in Above(table, s.cursor) <==> Less(s.cursor, r.At());
    }
  }
}
