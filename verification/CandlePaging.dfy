/** The paged candle downloads of daily_data.py, against a server modelled as an oracle. */
module CandlePaging {
  import opened StableSorting

  const KLINES_LIMIT: nat := 1000

  const DAY_MS: int := 86_400_000

  /** Open time and the rest of the kline. */
  type Row = Timed<seq<string>>

  /** Rows in time order, at least a day apart. */
  predicate DailyTable(table: seq<Row>) {
    forall i, j :: 0 <= i < j < |table| ==> table[i].ts + DAY_MS <= table[j].ts
  }

  /** How many leading rows open before a time. */
  function Rank(table: seq<Row>, ts: int): (rank: nat)
    ensures rank <= |table|
    ensures rank > 0 ==> table[rank - 1].ts < ts
  {
    if table == [] then 0
    else if table[|table| - 1].ts < ts then |table|
    else Rank(table[..|table| - 1], ts)
  }

  /** The rank cuts a table in two. */
  lemma {:induction false} RankCuts(table: seq<Row>, ts: int)
    requires DailyTable(table)
    ensures forall i :: 0 <= i < |table| ==> (table[i].ts < ts <==> i < Rank(table, ts))
  {
    if table != [] && table[|table| - 1].ts >= ts {
      RankCuts(table[..|table| - 1], ts);
    }
  }

  lemma RankIs(table: seq<Row>, ts: int, k: nat)
    requires DailyTable(table) && k <= |table|
    requires k > 0 ==> table[k - 1].ts < ts
    requires k < |table| ==> table[k].ts >= ts
    ensures Rank(table, ts) == k
  {
    RankCuts(table, ts);
  }

  lemma RankMonotone(table: seq<Row>, a: int, b: int)
    requires DailyTable(table) && a <= b
    ensures Rank(table, a) <= Rank(table, b)
  {
    RankCuts(table, a);
    RankCuts(table, b);
  }

  lemma RankAt(table: seq<Row>, ts: int, i: nat)
    requires DailyTable(table) && i < |table|
    ensures table[i].ts < ts <==> i < Rank(table, ts)
  {
    RankCuts(table, ts);
  }

  /** One day past a row the rank is the row's successor. */
  lemma RankAfterRow(table: seq<Row>, k: nat)
    requires DailyTable(table) && 1 <= k <= |table|
    ensures Rank(table, table[k - 1].ts + DAY_MS) == k
  {
    RankIs(table, table[k - 1].ts + DAY_MS, k);
  }

  /** At most one row opens at a given time. */
  lemma RankOfInstant(table: seq<Row>, ts: int)
    requires DailyTable(table)
    ensures var k := Rank(table, ts);
            Rank(table, ts + 1) == if k < |table| && table[k].ts == ts then k + 1 else k
  {
    var k := Rank(table, ts);
    if k < |table| {
      RankAt(table, ts, k);
      RankIs(table, ts + 1, if table[k].ts == ts then k + 1 else k);
    } else {
      RankIs(table, ts + 1, k);
    }
  }

  /** The one-shot query: the rows with lo <= open time <= hi, in table order. */
  function InRange(table: seq<Row>, lo: int, hi: int): seq<Row> {
    var from, to := Rank(table, lo), Rank(table, hi + 1);
    if from <= to then table[from..to] else []
  }

  lemma InRangeLength(table: seq<Row>, lo: int, hi: int)
    ensures var from, to := Rank(table, lo), Rank(table, hi + 1);
            |InRange(table, lo, hi)| == if from <= to then to - from else 0
  {
    hide Rank;
  }

  lemma RowInRange(table: seq<Row>, lo: int, hi: int, i: nat)
    requires DailyTable(table) && i < |InRange(table, lo, hi)|
    ensures var k := Rank(table, lo) + i;
            k < |table| && InRange(table, lo, hi)[i] == table[k] && lo <= table[k].ts <= hi
  {
    hide DailyTable, Rank;
    RankAt(table, lo, Rank(table, lo) + i);
    RankAt(table, hi + 1, Rank(table, lo) + i);
  }

  lemma InRangeHasRow(table: seq<Row>, lo: int, hi: int, k: nat)
    requires DailyTable(table) && k < |table| && lo <= table[k].ts <= hi
    ensures Rank(table, lo) <= k < Rank(table, lo) + |InRange(table, lo, hi)|
    ensures InRange(table, lo, hi)[k - Rank(table, lo)] == table[k]
  {
    hide DailyTable, Rank;
    RankAt(table, lo, k);
    RankAt(table, hi + 1, k);
  }

  /** The query returns exactly the rows of the interval, ascending and each once. */
  lemma InRangeIsExact(table: seq<Row>, lo: int, hi: int, row: Row)
    requires DailyTable(table)
    ensures row in InRange(table, lo, hi) <==> row in table && lo <= row.ts <= hi
    ensures DailyTable(InRange(table, lo, hi))
  {
    hide InRange, Rank;
    var found := InRange(table, lo, hi);
    if row in found {
      var i :| 0 <= i < |found| && found[i] == row;
      RowInRange(table, lo, hi, i);
    }
    if row in table && lo <= row.ts <= hi {
      var k :| 0 <= k < |table| && table[k] == row;
      InRangeHasRow(table, lo, hi, k);
    }
    forall i, j | 0 <= i < j < |found|
      ensures found[i].ts + DAY_MS <= found[j].ts
    {
      RowInRange(table, lo, hi, i);
      RowInRange(table, lo, hi, j);
    }
  }

  // ------------------------------------------------------------------------ Binance

  /** The server's answer to one request: the first page of the range. */
  function Page(table: seq<Row>, cursor: int, end: int): (batch: seq<Row>)
    ensures |batch| <= KLINES_LIMIT
  {
    var rows := InRange(table, cursor, end);
    if |rows| <= KLINES_LIMIT then rows else rows[..KLINES_LIMIT]
  }

  /** Does paging stop on the very boundary?  The rows before `end` fill their pages exactly and
      the last of them opens one day before it. */
  predicate StopsAtBoundary(table: seq<Row>, start: int, end: int) {
    var rows := InRange(table, start, end - 1);
    rows != [] && |rows| % KLINES_LIMIT == 0 && rows[|rows| - 1].ts == end - DAY_MS
  }

  /** The loop's progress: whole pages fetched up to the cursor, which is one day past them. */
  ghost predicate Fetched(table: seq<Row>, start: int, end: int, cursor: int, rows: seq<Row>) {
    var from, to := Rank(table, start), Rank(table, cursor);
    && start <= cursor && from <= to && rows == table[from..to]
    && (cursor == start || (from < to && table[to - 1].ts + DAY_MS == cursor && table[to - 1].ts <= end))
  }

  lemma JoinSlices(table: seq<Row>, a: nat, b: nat, c: nat)
    requires a <= b <= c <= |table|
    ensures table[a..b] + table[b..c] == table[a..c]
  {
  }

  /** A page is the next stretch of the table, as much of it as fits. */
  lemma PageIsStretch(table: seq<Row>, cursor: int, end: int)
    requires DailyTable(table) && cursor <= end
    ensures var mid, last, size := Rank(table, cursor), Rank(table, end + 1), |Page(table, cursor, end)|;
            && mid + size <= last
            && Page(table, cursor, end) == table[mid..mid + size]
            && (size < KLINES_LIMIT ==> mid + size == last)
  {
    hide DailyTable, Rank;
    RankMonotone(table, cursor, end + 1);
  }

  /** One more page moves the cursor one day past its last row, and skips nothing. */
  lemma PageAdvances(table: seq<Row>, start: int, end: int, cursor: int, rows: seq<Row>)
    requires DailyTable(table) && cursor < end && Fetched(table, start, end, cursor, rows)
    requires Page(table, cursor, end) != []
    ensures var batch := Page(table, cursor, end);
            && cursor <= batch[|batch| - 1].ts
            && Fetched(table, start, end, batch[|batch| - 1].ts + DAY_MS, rows + batch)
  {
    hide DailyTable, Rank, Page, InRange;
    PageIsStretch(table, cursor, end);
    var batch, from, mid := Page(table, cursor, end), Rank(table, start), Rank(table, cursor);
    var to := mid + |batch|;
    assert batch[|batch| - 1] == table[to - 1];
    RankAt(table, cursor, to - 1);
    RankAt(table, end + 1, to - 1);
    RankAfterRow(table, to);
    JoinSlices(table, from, mid, to);
  }

  /** A short page completes the query ... */
  lemma ShortPageCompletes(table: seq<Row>, start: int, end: int, cursor: int, rows: seq<Row>)
    requires DailyTable(table) && cursor < end && Fetched(table, start, end, cursor, rows)
    requires |Page(table, cursor, end)| < KLINES_LIMIT
    ensures rows + Page(table, cursor, end) == InRange(table, start, end)
  {
    hide DailyTable, Rank, Page;
    PageIsStretch(table, cursor, end);
    JoinSlices(table, Rank(table, start), Rank(table, cursor), Rank(table, end + 1));
  }

  /** ... and then paging did not stop at the boundary. */
  lemma ShortPageIsNotBoundary(table: seq<Row>, start: int, end: int, cursor: int, rows: seq<Row>)
    requires DailyTable(table) && cursor < end && Fetched(table, start, end, cursor, rows)
    requires |rows| % KLINES_LIMIT == 0 && |Page(table, cursor, end)| < KLINES_LIMIT
    ensures !StopsAtBoundary(table, start, end)
  {
    hide DailyTable, Rank, Page, InRange;
    RankMonotone(table, cursor, end);
    RankMonotone(table, end, end + 1);
    PageIsStretch(table, cursor, end);
    InRangeLength(table, start, end - 1);
    var from, mid, before := Rank(table, start), Rank(table, cursor), Rank(table, end);
    var found := InRange(table, start, end - 1);
    if found != [] && |found| % KLINES_LIMIT == 0 {
      ShortRemainder(mid - from, before - mid);
      LastBelowCursor(table, start, end, cursor, rows);
    }
  }

  /** With nothing between the cursor and the end, the last row before the end opens a day before
      the cursor, too early for the boundary. */
  lemma LastBelowCursor(table: seq<Row>, start: int, end: int, cursor: int, rows: seq<Row>)
    requires DailyTable(table) && cursor < end && Fetched(table, start, end, cursor, rows)
    requires Rank(table, cursor) == Rank(table, end) && InRange(table, start, end - 1) != []
    ensures var found := InRange(table, start, end - 1); found[|found| - 1].ts < end - DAY_MS
  {
    hide DailyTable, Rank;
    var from, mid := Rank(table, start), Rank(table, cursor);
    assert InRange(table, start, end - 1) == table[from..mid];
    assert table[mid - 1].ts + DAY_MS == cursor;
  }

  lemma ShortRemainder(whole: nat, rest: nat)
    requires whole % KLINES_LIMIT == 0 && (whole + rest) % KLINES_LIMIT == 0 && rest < KLINES_LIMIT
    ensures rest == 0
  {
  }

  lemma LandsOnTheEnd(table: seq<Row>, start: int, end: int, rows: seq<Row>)
    requires DailyTable(table) && start < end && Fetched(table, start, end, end, rows)
    requires |rows| % KLINES_LIMIT == 0
    ensures StopsAtBoundary(table, start, end) && rows == InRange(table, start, end - 1)
  {
    hide DailyTable, Rank;
    assert InRange(table, start, end - 1) == rows;
  }

  lemma LandsPastTheEnd(table: seq<Row>, start: int, end: int, cursor: int, rows: seq<Row>)
    requires DailyTable(table) && start < end < cursor && Fetched(table, start, end, cursor, rows)
    ensures rows == InRange(table, start, end)
    ensures Rank(table, end) == Rank(table, cursor) || Rank(table, end) == Rank(table, cursor) - 1
  {
    hide DailyTable, Rank;
    var to := Rank(table, cursor);
    RankOfInstant(table, end);
    RankMonotone(table, end + 1, cursor);
    RankAt(table, end + 1, to - 1);
    assert to == Rank(table, end + 1);
  }

  /** Past the end with whole pages, the rows before the end do not stop on the boundary: either
      one of them is missing from whole pages, or the last of them opens too late. */
  lemma PastTheEndIsNotBoundary(table: seq<Row>, start: int, end: int, cursor: int, rows: seq<Row>)
    requires DailyTable(table) && start < end < cursor && Fetched(table, start, end, cursor, rows)
    requires |rows| % KLINES_LIMIT == 0
    requires Rank(table, end) == Rank(table, cursor) || Rank(table, end) == Rank(table, cursor) - 1
    ensures !StopsAtBoundary(table, start, end)
  {
    hide DailyTable, Rank;
    RankMonotone(table, start, end);
    InRangeLength(table, start, end - 1);
    var from, before, to := Rank(table, start), Rank(table, end), Rank(table, cursor);
    if before == to {
      assert InRange(table, start, end - 1) == rows;
      assert rows[|rows| - 1] == table[to - 1];
    } else {
      hide InRange;
      assert |rows| == before - from + 1;
    }
  }

  /** Whole pages that reach the end: complete, unless the cursor landed on the boundary. */
  lemma WholePagesComplete(table: seq<Row>, start: int, end: int, cursor: int, rows: seq<Row>)
    requires DailyTable(table) && start < end <= cursor && Fetched(table, start, end, cursor, rows)
    requires |rows| % KLINES_LIMIT == 0
    ensures rows == if StopsAtBoundary(table, start, end) then InRange(table, start, end - 1)
                    else InRange(table, start, end)
  {
    hide DailyTable, Rank, InRange, StopsAtBoundary, Fetched;
    if cursor == end {
      LandsOnTheEnd(table, start, end, rows);
    } else {
      LandsPastTheEnd(table, start, end, cursor, rows);
      PastTheEndIsNotBoundary(table, start, end, cursor, rows);
    }
  }

  /** Paging refines the one-shot query.  Every row in [start, end) comes back once, ascending,
      and nothing outside [start, end]; a row at `end` itself is missed exactly when paging
      stops at the boundary. */
  method FetchKlines(table: seq<Row>, start: int, end: int) returns (rows: seq<Row>)
    requires DailyTable(table)
    ensures rows ==
            if start >= end then []
            else if StopsAtBoundary(table, start, end) then InRange(table, start, end - 1)
            else InRange(table, start, end)
  {
    hide StopsAtBoundary, InRange, Page, DailyTable;
    rows := [];
    var cursor := start;
    while cursor < end
      invariant Fetched(table, start, end, cursor, rows) && |rows| % KLINES_LIMIT == 0
      invariant start >= end ==> cursor == start
      decreases end - cursor
    {
      var batch := Page(table, cursor, end);
      if |batch| < KLINES_LIMIT {
        ShortPageCompletes(table, start, end, cursor, rows);
        ShortPageIsNotBoundary(table, start, end, cursor, rows);
      }
      if batch == [] {
        assert rows + batch == rows;
        return;
      }
      PageAdvances(table, start, end, cursor, rows);
      rows := rows + batch;
      var lastOpenTime := batch[|batch| - 1].ts;
      cursor := lastOpenTime + DAY_MS;
      if |batch| < KLINES_LIMIT {
        return;
      }
    }
    if start < end {
      WholePagesComplete(table, start, end, cursor, rows);
    }
  }

  /** One row a day from time zero. */
  function EveryDay(days: nat): (table: seq<Row>)
    ensures |table| == days && forall i :: 0 <= i < days ==> table[i].ts == i * DAY_MS
  {
    seq(days, i => Timed(i * DAY_MS, []))
  }

  /** The boundary case is real: of 1001 daily rows ending at `end`, paging returns 1000. */
  lemma BoundaryRowIsMissed()
    ensures var table, end := EveryDay(KLINES_LIMIT + 1), KLINES_LIMIT * DAY_MS;
            && DailyTable(table)
            && StopsAtBoundary(table, 0, end)
            && table[KLINES_LIMIT] in InRange(table, 0, end)
            && table[KLINES_LIMIT] !in InRange(table, 0, end - 1)
  {
    var table, end := EveryDay(KLINES_LIMIT + 1), KLINES_LIMIT * DAY_MS;
    RankIs(table, 0, 0);
    RankIs(table, end, KLINES_LIMIT);
    InRangeIsExact(table, 0, end, table[KLINES_LIMIT]);
    InRangeIsExact(table, 0, end - 1, table[KLINES_LIMIT]);
  }

  // -------------------------------------------------------------------- Hyperliquid

  /** What the source needs of the server to make progress: a page ends less than a day before
      the cursor it was asked for, or later. */
  ghost predicate Advances(server: int -> seq<Row>) {
    forall cursor: int :: server(cursor) != [] ==> server(cursor)[|server(cursor)| - 1].ts + DAY_MS > cursor
  }

  /** All pages, in the order fetched. */
  function AllPages(server: int -> seq<Row>, cursor: int, end: int): seq<Row>
    requires Advances(server)
    decreases end - cursor
  {
    if cursor >= end then []
    else
      var batch := server(cursor);
      if batch == [] then []
      else if |batch| < 2 then batch
      else batch + AllPages(server, batch[|batch| - 1].ts + DAY_MS, end)
  }

  predicate StrictlyAscending(rows: seq<Row>) {
    forall i, j :: 0 <= i < j < |rows| ==> rows[i].ts < rows[j].ts
  }

  /** Keeps the first row of every open time. */
  function FirstOfEach(rows: seq<Row>): seq<Row> {
    if rows == [] then []
    else
      var init, last := rows[..|rows| - 1], rows[|rows| - 1];
      if AtTime(init, last.ts) != [] then FirstOfEach(init) else FirstOfEach(init) + [last]
  }

  /** De-duplicating leaves, for every open time, the first row of that time and no other. */
  lemma {:induction false} FirstOfEachAt(rows: seq<Row>, ts: int)
    ensures AtTime(FirstOfEach(rows), ts)
         == if AtTime(rows, ts) == [] then [] else [AtTime(rows, ts)[0]]
  {
    if rows != [] {
      var init, last := rows[..|rows| - 1], rows[|rows| - 1];
      FirstOfEachAt(init, ts);
      AtTimeSnoc(FirstOfEach(init), last, ts);
    }
  }

  lemma {:induction false} NothingLater(rows: seq<Row>, ts: int)
    requires Sorted(rows) && (rows != [] ==> rows[|rows| - 1].ts < ts)
    ensures AtTime(rows, ts) == []
  {
    if rows != [] {
      NothingLater(rows[..|rows| - 1], ts);
    }
  }

  lemma AscendingSnoc(kept: seq<Row>, row: Row)
    requires StrictlyAscending(kept) && (kept != [] ==> kept[|kept| - 1].ts < row.ts)
    ensures StrictlyAscending(kept + [row])
  {
    assert forall k :: 0 <= k < |kept| ==> kept[k].ts <= kept[|kept| - 1].ts;
  }

  lemma LastIsAtItsTime(rows: seq<Row>)
    requires rows != []
    ensures AtTime(rows, rows[|rows| - 1].ts) != []
  {
  }

  lemma SortedInit(rows: seq<Row>)
    requires Sorted(rows) && rows != []
    ensures Sorted(rows[..|rows| - 1])
    ensures |rows| > 1 ==> rows[|rows| - 2].ts <= rows[|rows| - 1].ts
  {
  }

  /** On sorted rows the result is strictly ascending and reaches the same last time. */
  lemma {:induction false} FirstOfEachAscends(rows: seq<Row>)
    requires Sorted(rows)
    ensures StrictlyAscending(FirstOfEach(rows))
    ensures rows != [] ==>
              FirstOfEach(rows) != [] && FirstOfEach(rows)[|FirstOfEach(rows)| - 1].ts == rows[|rows| - 1].ts
  {
    if rows != [] {
      var init, last := rows[..|rows| - 1], rows[|rows| - 1];
      SortedInit(rows);
      FirstOfEachAscends(init);
      if init == [] {
        assert AtTime(init, last.ts) == [];
        AscendingSnoc(FirstOfEach(init), last);
      } else if init[|init| - 1].ts < last.ts {
        NothingLater(init, last.ts);
        AscendingSnoc(FirstOfEach(init), last);
      } else {
        LastIsAtItsTime(init);
      }
      hide AtTime, Sorted, StrictlyAscending;
    }
  }

  /** What one more page adds; the cursor moves on. */
  lemma NextPage(server: int -> seq<Row>, cursor: int, end: int, rows: seq<Row>)
    requires Advances(server) && cursor < end
    ensures var batch, all := server(cursor), rows + AllPages(server, cursor, end);
            if batch == [] then all == rows
            else
              && batch[|batch| - 1].ts + DAY_MS > cursor
              && all == if |batch| < 2 then rows + batch
                        else rows + batch + AllPages(server, batch[|batch| - 1].ts + DAY_MS, end)
  {
    var batch := server(cursor);
    if batch == [] {
      assert rows + [] == rows;
    } else if |batch| >= 2 {
      var rest := AllPages(server, batch[|batch| - 1].ts + DAY_MS, end);
      assert rows + (batch + rest) == rows + batch + rest;
    }
  }

  /** The page loop. */
  method FetchAllPages(server: int -> seq<Row>, start: int, end: int) returns (rows: seq<Row>)
    requires Advances(server)
    ensures rows == AllPages(server, start, end)
  {
    rows := [];
    var cursor := start;
    while cursor < end
      invariant rows + AllPages(server, cursor, end) == AllPages(server, start, end)
      decreases end - cursor
    {
      hide AllPages, Advances;
      NextPage(server, cursor, end, rows);
      var batch := server(cursor);
      if batch == [] {
        return;
      }
      rows := rows + batch;
      if |batch| < 2 {
        return;
      }
      var lastOpenTime := batch[|batch| - 1].ts;
      cursor := lastOpenTime + DAY_MS;
    }
    assert rows + [] == rows;
  }

  /** The de-duplication loop. */
  method Deduplicate(rows: seq<Row>) returns (unique: seq<Row>)
    ensures unique == FirstOfEach(rows)
  {
    var seen: set<int> := {};
    unique := [];
    for index := 0 to |rows|
      invariant forall t: int :: t in seen <==> AtTime(rows[..index], t) != []
      invariant unique == FirstOfEach(rows[..index])
    {
      var item := rows[index];
      assert rows[..index + 1][..index] == rows[..index];
      if item.ts !in seen {
        seen := seen + {item.ts};
        unique := unique + [item];
      }
      assert rows[..index + 1] == rows[..index] + [item];
    }
    assert rows[..|rows|] == rows;
  }

  /** However the pages overlap, the download is strictly ascending, holds a row for exactly
      the open times that were served, and for each of them the first row served. */
  method FetchHyperliquid(server: int -> seq<Row>, start: int, end: int) returns (unique: seq<Row>)
    requires Advances(server)
    ensures StrictlyAscending(unique)
    ensures forall ts: int :: AtTime(unique, ts) ==
              var served := AtTime(AllPages(server, start, end), ts);
              if served == [] then [] else [served[0]]
  {
    var rows := FetchAllPages(server, start, end);
    var sorted := SortByTime(rows);
    unique := Deduplicate(sorted);
    SortIsStable(rows, 0);
    FirstOfEachAscends(sorted);
    forall ts: int
      ensures AtTime(unique, ts) == if AtTime(rows, ts) == [] then [] else [AtTime(rows, ts)[0]]
    {
      SortIsStable(rows, ts);
      FirstOfEachAt(sorted, ts);
    }
  }
}
