/** Credits charged to users over days and months: what rewards and budgets both count. */
module CreditWindows {

  /** A moment: its month, its day in the month, its time in the day. */
  datatype Stamp = Stamp(month: int, day: int, second: int)

  /** A charge against a user under some kind: a reward type, or an automation. */
  datatype Charge = Charge(user: string, kind: string, credits: int, key: string, created: Stamp)

  predicate DayReached(day: Stamp, stamp: Stamp) {
    stamp.month > day.month || (stamp.month == day.month && stamp.day >= day.day)
  }

  predicate SameDay(a: Stamp, b: Stamp) { a.month == b.month && a.day == b.day }

  /** Not later than. */
  predicate Upto(a: Stamp, b: Stamp) {
    DayReached(a, b) && (SameDay(a, b) ==> a.second <= b.second)
  }

  /** The stretches of time credits are counted over. */
  datatype Window = OnDay(day: Stamp) | SinceDay(day: Stamp) | InMonth(month: int) | SinceMonth(month: int) | Ever

  predicate Within(window: Window, stamp: Stamp) {
    match window
    case OnDay(day) => SameDay(day, stamp)
    case SinceDay(day) => DayReached(day, stamp)
    case InMonth(month) => stamp.month == month
    case SinceMonth(month) => stamp.month >= month
    case Ever => true
  }

  function Counted(row: Charge, user: string, kind: string, window: Window): int {
    if row.user == user && row.kind == kind && Within(window, row.created) then row.credits else 0
  }

  /** Credits charged to a user under a kind in a window. */
  function Total(rows: seq<Charge>, user: string, kind: string, window: Window): int {
    if rows == [] then 0
    else Total(rows[..|rows| - 1], user, kind, window) + Counted(rows[|rows| - 1], user, kind, window)
  }

  // ---------------------------------------------------------------------------- totals

  lemma {:induction false} TotalConcat(a: seq<Charge>, b: seq<Charge>, user: string, kind: string, window: Window)
    ensures Total(a + b, user, kind, window) == Total(a, user, kind, window) + Total(b, user, kind, window)
  {
    hide Counted;
    if b == [] {
      assert a + b == a;
    } else {
      assert (a + b)[..|a + b| - 1] == a + b[..|b| - 1];
      TotalConcat(a, b[..|b| - 1], user, kind, window);
    }
  }

  predicate NonNegative(rows: seq<Charge>) { forall row :: row in rows ==> row.credits >= 0 }

  /** A window that covers another counts no less. */
  lemma {:induction false} WiderCountsMore(rows: seq<Charge>, user: string, kind: string, narrow: Window, wide: Window)
    requires NonNegative(rows)
    requires forall row :: row in rows && Within(narrow, row.created) ==> Within(wide, row.created)
    ensures 0 <= Total(rows, user, kind, narrow) <= Total(rows, user, kind, wide)
  {
    hide Within;
    if rows != [] {
      assert rows[|rows| - 1] in rows;
      WiderCountsMore(rows[..|rows| - 1], user, kind, narrow, wide);
    }
  }

  lemma {:induction false} OthersDoNotCount(rows: seq<Charge>, user: string, kind: string, window: Window)
    requires forall row :: row in rows ==> row.user != user
    ensures Total(rows, user, kind, window) == 0
  {
    if rows != [] {
      OthersDoNotCount(rows[..|rows| - 1], user, kind, window);
      assert rows[|rows| - 1] in rows;
    }
  }

  lemma TotalOfOne(row: Charge, user: string, kind: string, window: Window)
    ensures Total([row], user, kind, window) == Counted(row, user, kind, window)
  {
    assert [row][..0] == [];
  }

  /** A new row keeps a cap on a window when the sum it was admitted on, over a window that covers
      that one, left room for it. */
  lemma RowFits(rows: seq<Charge>, row: Charge, narrow: Window, wide: Window, cap: int)
    requires NonNegative(rows)
    requires Total(rows, row.user, row.kind, wide) + row.credits <= cap
    requires Total(rows, row.user, row.kind, narrow) <= cap
    requires Within(narrow, row.created) ==>
               forall r :: r in rows && Within(narrow, r.created) ==> Within(wide, r.created)
    ensures Total(rows + [row], row.user, row.kind, narrow) <= cap
  {
    hide Total, Within;
    TotalConcat(rows, [row], row.user, row.kind, narrow);
    TotalOfOne(row, row.user, row.kind, narrow);
    if Within(narrow, row.created) {
      WiderCountsMore(rows, row.user, row.kind, narrow, wide);
    }
  }

  /** Replacing one row moves a total by the difference of the two. */
  lemma {:induction false} TotalUpdate(rows: seq<Charge>, i: nat, row: Charge, user: string, kind: string,
        window: Window)
    requires i < |rows|
    ensures Total(rows[i := row], user, kind, window) ==
              Total(rows, user, kind, window) - Counted(rows[i], user, kind, window) + Counted(row, user, kind, window)
  {
    hide Counted;
    var init := rows[..|rows| - 1];
    if i == |rows| - 1 {
      assert rows[i := row][..|rows| - 1] == init;
    } else {
      assert rows[i := row][..|rows| - 1] == init[i := row];
      TotalUpdate(init, i, row, user, kind, window);
    }
  }
}
