/** How often the inbound loop hands a message on: at least once, at most twice. */
module InboundLaws {
  import opened InboundWatermark

  // -------------------------------------------------------------------------- counts

  /** Rowids grow. */
  predicate Ascending(table: seq<Row>) {
    && (forall i :: 0 <= i < |table| ==> table[i].rowid > 0)
    && (forall i, j :: 0 <= i < j < |table| ==> table[i].rowid < table[j].rowid)
  }

  function Times(rows: seq<Row>, row: Row): nat { multiset(rows)[row] }

  lemma TimesConcat(a: seq<Row>, b: seq<Row>, row: Row)
    ensures Times(a + b, row) == Times(a, row) + Times(b, row)
  {
  }

  lemma TimesOfPart(rows: seq<Row>, n: nat, row: Row)
    requires n <= |rows|
    ensures Times(rows[..n], row) <= Times(rows, row)
  {
    assert rows == rows[..n] + rows[n..];
  }

  lemma {:induction false} LatestIsLast(table: seq<Row>)
    requires Ascending(table)
    ensures table == [] ==> Latest(table) == 0
    ensures table != [] ==> Latest(table) == table[|table| - 1].rowid
    ensures Latest(table) >= 0 && forall row :: row in table ==> row.rowid <= Latest(table)
  {
    if |table| > 1 {
      LatestIsLast(table[..|table| - 1]);
    }
  }

  lemma {:induction false} WantedOnce(table: seq<Row>, watermark: int, row: Row)
    requires Ascending(table)
    ensures Times(Wanted(table, watermark), row) ==
              if row in table && row.rowid > watermark && Inbound(row) then 1 else 0
  {
    if table != [] {
      var init, last := table[..|table| - 1], table[|table| - 1];
      assert table == init + [last];
      WantedOnce(init, watermark, row);
      assert last !in init;
      TimesConcat(Wanted(init, watermark), if last.rowid > watermark && Inbound(last) then [last] else [], row);
    }
  }

  // ---------------------------------------------------------------------- invariants

  /** How often a row may have reached the handler. */
  predicate HandledWithin(s: Loop, row: Row) {
    && Times(s.handled, row) <= 2
    && (Times(s.handled, row) > 0 ==>
          row in s.table && Inbound(row) && s.initial.Upto? && row.rowid > s.initial.rowid)
    && (s.watermark == Unset || row.rowid > s.watermark.rowid ==> Times(s.handled, row) <= 1)
  }

  predicate MarksInOrder(s: Loop) {
    && (s.initial == Unset <==> s.watermark == Unset)
    && (s.watermark.Upto? ==> s.initial.rowid <= s.watermark.rowid <= Latest(s.table))
  }

  /** Nothing between the initial and the present watermark was missed. */
  predicate NothingMissed(s: Loop, row: Row) {
    s.watermark.Upto? && s.initial.Upto? && row in s.table && Inbound(row)
    && s.initial.rowid < row.rowid <= s.watermark.rowid ==>
      Times(s.handled, row) >= 1
  }

  lemma LatestGrows(first: seq<Row>, more: seq<Row>)
    requires Ascending(first + more)
    ensures Ascending(first) && Latest(first) <= Latest(first + more)
    ensures forall row :: row in more ==> row.rowid > Latest(first)
  {
    var all := first + more;
    assert forall i :: 0 <= i < |first| ==> all[i] == first[i];
    LatestIsLast(first);
    LatestIsLast(all);
    if first != [] {
      assert all[|first| - 1] in all;
    }
    forall row | row in more
      ensures row.rowid > Latest(first)
    {
      var j :| 0 <= j < |more| && more[j] == row;
      assert all[|first| + j] == row;
      if first != [] {
        assert all[|first| - 1].rowid < all[|first| + j].rowid;
      }
    }
  }

  predicate Handed(s: Loop, row: Row) { HandledWithin(s, row) && MarksInOrder(s) }

  /** Rows that only arrive. */
  lemma ArrivalKeeps(s: Loop, more: seq<Row>, row: Row)
    requires Ascending(s.table + more) && Handed(s, row)
    ensures Handed(s.(table := s.table + more), row)
  {
    hide Latest, Times, Ascending;
    LatestGrows(s.table, more);
  }

  /** One poll after the rows before it have arrived. */
  lemma ReadKeeps(s: Loop, between: seq<Row>, stop: Stop, row: Row)
    requires Ascending(s.table + between) && Handed(s, row) && s.alive
    ensures Handed(Step(s, Turn([], Reads(between, stop))), row)
  {
    hide Latest, Times, Ascending, Wanted;
    assert s.table + [] == s.table;
    var second := s.table + between;
    var batch := Batch(s.watermark, second);
    var reached := batch[..Reached(batch, stop)];
    LatestGrows(s.table, between);
    LatestFloor(s.table, s.watermark);
    TimesConcat(s.handled, reached, row);
    TimesOfPart(batch, Reached(batch, stop), row);
    if s.watermark == Unset {
      NoTimes(row);
    } else {
      WantedOnce(second, s.watermark.rowid, row);
      RowsBelowLatest(s.table, row);
    }
  }

  lemma NoTimes(row: Row)
    ensures Times([], row) == 0
  {
  }

  lemma LatestFloor(table: seq<Row>, mark: Mark)
    requires Ascending(table)
    ensures Latest(table) >= 0
  {
    LatestIsLast(table);
  }

  lemma RowsBelowLatest(table: seq<Row>, row: Row)
    requires Ascending(table)
    ensures row in table ==> row.rowid <= Latest(table)
  {
    LatestIsLast(table);
  }

  /** Every row that ever arrives, in order. */
  function Arrivals(turns: seq<Turn>): seq<Row> {
    if turns == [] then []
    else
      var last := turns[|turns| - 1];
      Arrivals(turns[..|turns| - 1]) + last.before + if last.poll.Reads? then last.poll.between else []
  }

  lemma {:induction false} TableIsArrivals(turns: seq<Turn>)
    ensures Run(turns).table == Arrivals(turns)
  {
    hide Batch, Latest;
    if turns != [] {
      TableIsArrivals(turns[..|turns| - 1]);
      assert Arrivals(turns) == Arrivals(turns) + [];
    }
  }

  predicate Uninterrupted(turns: seq<Turn>) {
    forall t :: t in turns && t.poll.Reads? ==> t.poll.stop == Completes
  }

  lemma AscendingPrefix(a: seq<Row>, b: seq<Row>)
    requires Ascending(a + b)
    ensures Ascending(a)
  {
    assert forall i :: 0 <= i < |a| ==> (a + b)[i] == a[i];
  }

  lemma StepKeeps(s: Loop, turn: Turn, row: Row)
    requires Ascending(Step(s, turn).table) && Handed(s, row)
    ensures Handed(Step(s, turn), row)
  {
    hide Ascending, Handed, Latest, Batch;
    var arrived := s.(table := s.table + turn.before);
    match turn.poll
    case Fails =>
      ArrivalKeeps(s, turn.before, row);
    case Reads(between, stop) =>
      AscendingPrefix(s.table + turn.before, between);
      ArrivalKeeps(s, turn.before, row);
      if s.alive {
        ReadKeeps(arrived, between, stop, row);
        assert arrived.table + [] == arrived.table;
        assert Step(arrived, Turn([], turn.poll)) == Step(s, turn);
      } else {
        ArrivalKeeps(arrived, between, row);
      }
  }

  /** Over every run: a row reaches the handler at most twice, only if it is inbound, and never if
      it was in the database before the first poll. */
  lemma {:induction false} AtMostTwice(turns: seq<Turn>, row: Row)
    requires Ascending(Arrivals(turns))
    ensures Handed(Run(turns), row)
  {
    hide Ascending, Handed, Step, Arrivals;
    if turns == [] {
      NothingHandedAtStart(row);
    } else {
      var init := turns[..|turns| - 1];
      TableIsArrivals(turns);
      TableIsArrivals(init);
      ArrivalsPrefix(turns);
      AtMostTwice(init, row);
      StepKeeps(Run(init), turns[|turns| - 1], row);
    }
  }

  lemma ArrivalsPrefix(turns: seq<Turn>)
    requires turns != [] && Ascending(Arrivals(turns))
    ensures Ascending(Arrivals(turns[..|turns| - 1]))
  {
    hide Ascending;
    var init, last := Arrivals(turns[..|turns| - 1]), turns[|turns| - 1];
    AscendingPrefix(init + last.before, if last.poll.Reads? then last.poll.between else []);
    AscendingPrefix(init, last.before);
  }

  lemma NothingHandedAtStart(row: Row)
    ensures Handed(START, row) && NothingMissed(START, row)
  {
  }

  // ------------------------------------------------------------------ missed messages

  /** A poll loses a row: the row is inbound, was there at the first read, is above the old
      watermark, and has not been handed on, neither earlier nor in what this poll's batch got
      to before it broke off. */
  predicate Loses(s: Loop, turn: Turn, row: Row) {
    && s.alive && turn.poll.Reads? && s.watermark.Upto?
    && row in s.table + turn.before && Inbound(row) && row.rowid > s.watermark.rowid
    && Times(s.handled, row) == 0
    && (var batch := Batch(s.watermark, s.table + turn.before + turn.poll.between);
        row !in batch[..Reached(batch, turn.poll.stop)])
  }

  predicate LostAt(turns: seq<Turn>, k: nat, row: Row)
    requires k < |turns|
  {
    Loses(Run(turns[..k]), turns[k], row)
  }

  lemma NotInIsNoTimes(rows: seq<Row>, row: Row)
    ensures row !in rows <==> Times(rows, row) == 0
  {
  }

  /** One turn makes a row missed exactly when it was missed already or the poll loses it. */
  lemma MissedInOneStep(s: Loop, turn: Turn, row: Row)
    requires Ascending(Step(s, turn).table) && Handed(s, row)
    ensures !NothingMissed(Step(s, turn), row) <==> !NothingMissed(s, row) || Loses(s, turn, row)
  {
    hide Ascending, Latest, Wanted, Times;
    var first := s.table + turn.before;
    match turn.poll
    case Fails =>
      LatestGrows(s.table, turn.before);
      NotInIsNoTimes(s.handled, row);
    case Reads(between, stop) =>
      AscendingPrefix(first, between);
      LatestGrows(s.table, turn.before);
      LatestGrows(first, between);
      if s.alive {
        var batch := Batch(s.watermark, first + between);
        var reached := batch[..Reached(batch, stop)];
        RowsBelowLatest(first, row);
        TimesConcat(s.handled, reached, row);
        NotInIsNoTimes(reached, row);
        if s.watermark.Upto? {
          WantedOnce(first + between, s.watermark.rowid, row);
          TimesOfPart(batch, Reached(batch, stop), row);
        }
      }
  }

  /** Exactly when an inbound message the watermark has passed never reached the handler: when some
      poll lost it. */
  lemma {:induction false} MissedIff(turns: seq<Turn>, row: Row)
    requires Ascending(Arrivals(turns))
    ensures !NothingMissed(Run(turns), row) <==> exists k :: 0 <= k < |turns| && LostAt(turns, k, row)
  {
    hide Ascending, Handed, NothingMissed, Loses, Step, Arrivals;
    if turns == [] {
      NothingHandedAtStart(row);
    } else {
      var n := |turns| - 1;
      var init := turns[..n];
      TableIsArrivals(turns);
      ArrivalsPrefix(turns);
      AtMostTwice(init, row);
      MissedIff(init, row);
      MissedInOneStep(Run(init), turns[n], row);
      forall k | 0 <= k < n
        ensures LostAt(turns, k, row) == LostAt(init, k, row)
      {
        assert init[..k] == turns[..k];
      }
      assert LostAt(turns, n, row) == Loses(Run(init), turns[n], row);
      hide LostAt;
      if k :| 0 <= k < n && LostAt(init, k, row) {
        assert LostAt(turns, k, row);
      }
      if k :| 0 <= k < |turns| && LostAt(turns, k, row) {
        assert k == n || LostAt(init, k, row);
      }
    }
  }

  lemma {:induction false} UninterruptedStaysAlive(turns: seq<Turn>)
    requires Uninterrupted(turns)
    ensures Run(turns).alive
  {
    hide Batch, Latest;
    if turns != [] {
      var init, last := turns[..|turns| - 1], turns[|turns| - 1];
      assert turns == init + [last] && last in turns;
      UninterruptedStaysAlive(init);
    }
  }

  lemma CompletePollLosesNothing(s: Loop, turn: Turn, row: Row)
    requires Ascending(Step(s, turn).table) && (turn.poll.Reads? ==> turn.poll.stop == Completes)
    ensures !Loses(s, turn, row)
  {
    hide Ascending, Latest, Wanted;
    if s.alive && turn.poll.Reads? && s.watermark.Upto? {
      var second := s.table + turn.before + turn.poll.between;
      WantedOnce(second, s.watermark.rowid, row);
      NotInIsNoTimes(Wanted(second, s.watermark.rowid), row);
      var batch := Batch(s.watermark, second);
      assert batch[..|batch|] == batch;
    }
  }

  /** In particular, over every run in which no error escapes the inner handler: every inbound row
      above the initial watermark has reached the handler once the watermark has passed it. */
  lemma AtLeastOnce(turns: seq<Turn>, row: Row)
    requires Ascending(Arrivals(turns)) && Uninterrupted(turns)
    ensures NothingMissed(Run(turns), row) && Run(turns).alive
  {
    hide Ascending, NothingMissed, Loses, Step, Arrivals, Run;
    UninterruptedStaysAlive(turns);
    MissedIff(turns, row);
    forall k | 0 <= k < |turns|
      ensures !LostAt(turns, k, row)
    {
      assert turns[..k + 1][..k] == turns[..k] && turns[k] in turns;
      ArrivalsOfPart(turns, k + 1);
      TableIsArrivals(turns[..k + 1]);
      RunExtends(turns, k);
      CompletePollLosesNothing(Run(turns[..k]), turns[k], row);
    }
  }

  lemma RunExtends(turns: seq<Turn>, k: nat)
    requires k < |turns|
    ensures Run(turns[..k + 1]) == Step(Run(turns[..k]), turns[k])
  {
    assert turns[..k + 1][..k] == turns[..k];
  }

  /** A completed poll moves the watermark past everything there at its first read: a row waits
      for at most one completed poll after its arrival. */
  lemma OnePollSuffices(turns: seq<Turn>, before: seq<Row>, between: seq<Row>, row: Row)
    requires var all := turns + [Turn(before, Reads(between, Completes))];
             Ascending(Arrivals(all)) && Uninterrupted(turns)
    requires Run(turns).watermark.Upto? && Run(turns).initial.Upto? && row in Run(turns).table + before && Inbound(row)
    requires row.rowid > Run(turns).initial.rowid
    ensures Times(Run(turns + [Turn(before, Reads(between, Completes))]).handled, row) >= 1
  {
    hide Ascending, Latest, Arrivals, Wanted, Times;
    var last := Turn(before, Reads(between, Completes));
    var all := turns + [last];
    assert all[..|turns|] == turns;
    AtLeastOnce(all, row);
    ArrivalsPrefix(all);
    TableIsArrivals(all);
    AtLeastOnce(turns, row);
    var s := Run(turns);
    var first := s.table + before;
    AscendingPrefix(first, between);
    RowsBelowLatest(first, row);
    assert Run(all) == Step(s, last);
    assert row in first + between;
  }

  // ------------------------------------------------------------------- for good

  lemma PassedRowInOneStep(s: Loop, turn: Turn, row: Row)
    requires Ascending(Step(s, turn).table) && Handed(s, row)
    requires s.watermark.Upto? && row.rowid <= s.watermark.rowid
    ensures var t := Step(s, turn);
            && t.watermark.Upto? && row.rowid <= t.watermark.rowid
            && Times(t.handled, row) == Times(s.handled, row)
  {
    hide Ascending, Latest, Wanted, Times;
    var first := s.table + turn.before;
    if turn.poll.Reads? && s.alive {
      var second := first + turn.poll.between;
      AscendingPrefix(first, turn.poll.between);
      LatestGrows(s.table, turn.before);
      var batch := Batch(s.watermark, second);
      var reached := Reached(batch, turn.poll.stop);
      WantedOnce(second, s.watermark.rowid, row);
      TimesOfPart(batch, reached, row);
      TimesConcat(s.handled, batch[..reached], row);
    }
  }

  /** Once the watermark has passed a row, no later poll hands it on. */
  lemma {:induction false} PassedRowsStayPassed(turns: seq<Turn>, k: nat, row: Row)
    requires Ascending(Arrivals(turns)) && k <= |turns|
    requires Run(turns[..k]).watermark.Upto? && row.rowid <= Run(turns[..k]).watermark.rowid
    ensures Run(turns).watermark.Upto? && row.rowid <= Run(turns).watermark.rowid
    ensures Times(Run(turns).handled, row) == Times(Run(turns[..k]).handled, row)
    decreases |turns|
  {
    hide Ascending, Step, Arrivals, Times;
    if k < |turns| {
      var init := turns[..|turns| - 1];
      assert init[..k] == turns[..k];
      ArrivalsPrefix(turns);
      PassedRowsStayPassed(init, k, row);
      AtMostTwice(init, row);
      TableIsArrivals(turns);
      PassedRowInOneStep(Run(init), turns[|turns| - 1], row);
    } else {
      assert turns[..k] == turns;
    }
  }

  /** An error that escapes the inner handler loses the rest of its batch: the watermark has
      already moved, so an inbound message not yet reached, there since the first read, is missed
      for good. */
  lemma BrokenBatchLosesItsTail(turns: seq<Turn>, k: nat, row: Row)
    requires Ascending(Arrivals(turns)) && k < |turns| && turns[k].poll.Reads?
    requires var s, turn := Run(turns[..k]), turns[k];
             && s.alive && s.watermark.Upto? && Times(s.handled, row) == 0
             && (var batch := Batch(s.watermark, s.table + turn.before + turn.poll.between);
                 Times(batch[..Reached(batch, turn.poll.stop)], row) == 0)
             && row in s.table + turn.before && Inbound(row) && s.initial.Upto? && row.rowid > s.initial.rowid
    ensures Times(Run(turns).handled, row) == 0 && !NothingMissed(Run(turns), row)
  {
    hide Ascending, Arrivals, Latest, Wanted, Times, Run;
    var s, turn := Run(turns[..k]), turns[k];
    ArrivalsOfPart(turns, k);
    TableIsArrivals(turns[..k]);
    AtMostTwice(turns[..k], row);
    var batch := Batch(s.watermark, s.table + turn.before + turn.poll.between);
    NotInIsNoTimes(batch[..Reached(batch, turn.poll.stop)], row);
    MissedIff(turns, row);
    if row.rowid > s.watermark.rowid {
      assert LostAt(turns, k, row);
    } else {
      FirstReadAscends(turns, k);
      LowRowWasThere(s, turn.before, row);
      MissedIff(turns[..k], row);
      var j :| 0 <= j < k && LostAt(turns[..k], j, row);
      assert turns[..k][..j] == turns[..j];
      assert LostAt(turns, j, row);
    }
  }

  /** The first read of any poll sees rows in order. */
  lemma FirstReadAscends(turns: seq<Turn>, k: nat)
    requires Ascending(Arrivals(turns)) && k < |turns|
    ensures Ascending(Run(turns[..k]).table + turns[k].before)
  {
    hide Ascending, Run;
    var part := turns[..k + 1];
    assert part[..k] == turns[..k];
    ArrivalsOfPart(turns, k + 1);
    TableIsArrivals(turns[..k]);
    hide Arrivals;
    AscendingPrefix(
      Arrivals(turns[..k]) + turns[k].before, if turns[k].poll.Reads? then turns[k].poll.between else []);
  }

  /** A row at or below the watermark cannot arrive any more. */
  lemma LowRowWasThere(s: Loop, before: seq<Row>, row: Row)
    requires Ascending(s.table + before) && MarksInOrder(s)
    requires s.watermark.Upto? && row.rowid <= s.watermark.rowid && row in s.table + before
    ensures row in s.table
  {
    hide Ascending, Latest;
    LatestGrows(s.table, before);
  }

  /** Two messages of which the second is lost. */
  lemma LossIsReachable(a: Row, b: Row)
    requires Inbound(a) && Inbound(b) && 0 < a.rowid < b.rowid
    ensures var turns := [Turn([], Reads([], Completes)), Turn([a, b], Reads([], BreaksAfter(1, false)))];
            Run(turns).alive && !NothingMissed(Run(turns), b)
  {
    hide Ascending, Times, Latest, Wanted;
    var t1, t2 := Turn([], Reads([], Completes)), Turn([a, b], Reads([], BreaksAfter(1, false)));
    TwoMessages(a, b);
    assert [t1, t2][..1] == [t1] && [t1][..0] == [];
    var s := Run([t1]);
    assert s == Loop([], Upto(0), Upto(0), [], true) by {
      assert Run([]) == START;
      EmptyTable();
    }
    var table := [a, b];
    assert [] + table == table && table + [] == table && [] + table[..1] == [a];
    assert Run([t1, t2]) == Step(s, t2);
    assert Step(s, t2) == Loop(table, Upto(0), Upto(b.rowid), [a], true);
  }

  lemma EmptyTable()
    ensures Latest([]) == 0
  {
  }

  lemma TwoMessages(a: Row, b: Row)
    requires Inbound(a) && Inbound(b) && 0 < a.rowid < b.rowid
    ensures Latest([a, b]) == b.rowid && Wanted([a, b], 0) == [a, b] && Times([a], b) == 0
  {
    assert [a, b][..1] == [a] && [a][..0] == [];
    assert Wanted([a], 0) == [a] && Latest([a]) == a.rowid;
  }

  lemma {:induction false} ArrivalsOfPart(turns: seq<Turn>, k: nat)
    requires k <= |turns| && Ascending(Arrivals(turns))
    ensures Ascending(Arrivals(turns[..k]))
    decreases |turns|
  {
    hide Ascending, Arrivals;
    if k < |turns| {
      ArrivalsPrefix(turns);
      assert turns[..|turns| - 1][..k] == turns[..k];
      ArrivalsOfPart(turns[..|turns| - 1], k);
    } else {
      assert turns[..k] == turns;
    }
  }
}
