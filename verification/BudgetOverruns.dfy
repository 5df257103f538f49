/** Runs of the code that leave an automation above its limits. */
module BudgetOverruns {
  import opened CreditWindows
  import opened Budgets
  import opened BudgetRuns
  import opened BudgetLaws
  import opened Decimals

  /** A task of an automation that asks for a reservation. */
  datatype Task = Task(user: string, automation: string, key: string, credits: int, enforced: bool)

  function Asks(t: Task, at: Stamp): Admission { Admission("Free", t.automation, t.key, t.credits, at, NotYet) }

  /** One checked, flushed and committed reservation. */
  function ReserveEvents(t: Task, now: Stamp): seq<Event> {
    [Event(now, CheckFor(t.user, Asks(t, now))), Event(now, Insert(t.user, t.enforced)), Event(now, Commit(t.user))]
  }

  function ReservationOf(t: Task, now: Stamp): Reservation {
    Reservation(t.user, t.automation, t.key, Reserved, if t.enforced then t.credits else 0, Open, now)
  }

  function Slot(t: Task): (string, string) { (t.user, Clipped(t.automation)) }

  lemma {:induction false} RunConcat(start: Stamp, a: seq<Event>, b: seq<Event>)
    ensures Run(start, a + b) == RunFrom(Run(start, a), b)
  {
    hide Step;
    if b == [] {
      assert a + b == a;
    } else {
      assert (a + b)[..|a + b| - 1] == a + b[..|b| - 1];
      RunConcat(start, a, b[..|b| - 1]);
    }
  }

  function RunFrom(s: Db, events: seq<Event>): Db {
    if events == [] then s else Step(RunFrom(s, events[..|events| - 1]), events[|events| - 1])
  }

  /** A free plan's policy that leaves room for the task, if it is there already. */
  predicate HasRoom(s: Db, t: Task) {
    && t.user !in s.open && t.automation != [] && 0 <= t.credits <= 20 && !KeyTaken(s.reservations, t.key)
    && (Slot(t) in s.policies ==> |t.automation| <= 120 && s.policies[Slot(t)] == DefaultPolicy("Free"))
    && (|t.automation| > 120 ==> (t.user, t.automation) !in s.policies)
    && Usage(s.reservations, t.user, t.automation, SinceDay(s.clock)) + t.credits <= 20
    && Usage(s.reservations, t.user, t.automation, SinceMonth(s.clock.month)) + t.credits <= 300
  }

  lemma FirstEventTicks(s: Db, e: Event)
    requires Upto(s.clock, e.now)
    ensures Step(s, e) == Step(s.(clock := e.now), e)
  {
    hide Act;
    assert Upto(e.now, e.now);
  }

  lemma ChecksWithRoom(s: Db, t: Task)
    requires HasRoom(s, t)
    ensures Checking(s, t.user, Asks(t, s.clock)) == s.(open := s.open[t.user := Asks(t, s.clock)])
    ensures Getting(s.policies, t.user, "Free", t.automation) == s.policies[Slot(t) := DefaultPolicy("Free")]
  {
    hide Usage, KeyTaken;
    OwnKeyIsTaken(s.reservations, t.user, t.key);
  }

  lemma OwnKeyIsTaken(rows: seq<Reservation>, user: string, key: string)
    ensures OwnKey(rows, user, key) ==> KeyTaken(rows, key)
  {
  }

  /** Reserving with room adds the reservation and, at first, the policy. */
  lemma ReservesWithRoom(s: Db, t: Task, now: Stamp)
    requires Upto(s.clock, now) && HasRoom(s.(clock := now), t)
    ensures RunFrom(s, ReserveEvents(t, now)) ==
            Db(now, s.policies[Slot(t) := DefaultPolicy("Free")], s.reservations + [ReservationOf(t, now)], s.open)
  {
    hide Usage, Checking, Getting, HasRoom, KeyTaken, Clash, Slot;
    var u, events := s.(clock := now), ReserveEvents(t, now);
    RoomMeans(u, t);
    assert events[..2] == [events[0], events[1]] && [events[0], events[1]][..1] == [events[0]];
    assert [events[0]][..0] == [];
    assert RunFrom(s, []) == s;
    FirstEventTicks(s, events[0]);
    ChecksWithRoom(u, t);
    var checked := RunFrom(s, [events[0]]);
    assert checked == u.(open := s.open[t.user := Asks(t, now)]);
    var inserted := RunFrom(s, [events[0], events[1]]);
    assert inserted == Inserting(checked, t.user, t.enforced);
    NewKeyIsFree(inserted, t.user, t.key);
    assert RunFrom(s, events) == Committing(inserted, t.user);
    assert inserted.open - {t.user} == s.open;
  }

  lemma NewKeyIsFree(s: Db, user: string, key: string)
    requires user in s.open && s.open[user].insertion.Flushed? && s.open[user].insertion.reservation.key == key
    requires !KeyTaken(s.reservations, key)
    ensures !Clash(s, user)
  {
    hide KeyTaken;
  }

  lemma RoomMeans(s: Db, t: Task)
    requires HasRoom(s, t)
    ensures t.user !in s.open && t.credits >= 0 && !KeyTaken(s.reservations, t.key)
  {
    hide Usage;
  }

  lemma {:induction false} OutsideWindow(rows: seq<Charge>, user: string, kind: string, window: Window)
    requires forall row :: row in rows ==> !Within(window, row.created)
    ensures Total(rows, user, kind, window) == 0
  {
    if rows != [] {
      OutsideWindow(rows[..|rows| - 1], user, kind, window);
      assert rows[|rows| - 1] in rows;
    }
  }

  lemma NothingUsedSince(rows: seq<Reservation>, user: string, automation: string, window: Window)
    requires forall r :: r in rows ==> !Within(window, r.created)
    ensures Usage(rows, user, automation, window) == 0
  {
    hide Within, Total;
    var charges := Charges(rows);
    forall c | c in charges
      ensures !Within(window, c.created)
    {
      var i :| 0 <= i < |charges| && charges[i] == c;
      assert rows[i] in rows;
    }
    OutsideWindow(charges, user, automation, window);
  }

  /** The key of a day's run. */
  function RunKey(day: nat): string { "run-" + Decimal(day) }

  lemma RunKeyInjective(a: nat, b: nat)
    requires RunKey(a) == RunKey(b)
    ensures a == b
  {
    hide Decimal;
    assert Decimal(a) == RunKey(a)[|"run-"|..] && Decimal(b) == RunKey(b)[|"run-"|..];
    DecimalInjective(a, b);
  }

  function DayTask(user: string, automation: string, day: nat, credits: int): Task {
    Task(user, automation, RunKey(day), credits, true)
  }

  /** Twenty credits a day, every day from the first. */
  function DailyReserves(user: string, automation: string, month: int, days: nat): seq<Event> {
    if days == 0 then []
    else
      DailyReserves(user, automation, month, days - 1)
      + ReserveEvents(DayTask(user, automation, days, 20), Stamp(month, days, 0))
  }

  /** A row of a day of a month under that day's key. */
  predicate DayRow(r: Reservation, month: int, day: int) {
    r.created.month == month && 0 <= r.created.day < day && r.key == RunKey(r.created.day)
  }

  /** A free plan on which some credits of the month are used, all of them before a day. */
  predicate UsedBefore(s: Db, user: string, automation: string, month: int, day: int, credits: int) {
    && s.open == map[] && Upto(s.clock, Stamp(month, day, 0))
    && ((user, automation) in s.policies ==> s.policies[(user, automation)] == DefaultPolicy("Free"))
    && (forall r :: r in s.reservations ==> DayRow(r, month, day))
    && Usage(s.reservations, user, automation, SinceMonth(month)) == credits
    && Usage(s.reservations, user, automation, InMonth(month)) == credits
  }

  lemma DaysKeyIsFree(rows: seq<Reservation>, month: int, day: nat)
    requires forall r :: r in rows ==> DayRow(r, month, day)
    ensures !KeyTaken(rows, RunKey(day))
  {
    hide RunKey;
    forall r | r in rows
      ensures r.key != RunKey(day)
    {
      if r.key == RunKey(day) {
        RunKeyInjective(r.created.day, day);
      }
    }
  }

  lemma ReservesOneMoreDay(s: Db, user: string, automation: string, month: int, day: nat, used: int, credits: int)
    requires UsedBefore(s, user, automation, month, day, used) && 0 <= credits <= 20 && used + credits <= 300
    requires automation != [] && |automation| <= 120
    ensures var now, task := Stamp(month, day, 0), DayTask(user, automation, day, credits);
            var t := RunFrom(s, ReserveEvents(task, now));
            && UsedBefore(t, user, automation, month, day + 1, used + credits) && t.clock == now
            && t.reservations == s.reservations + [ReservationOf(task, now)]
            && t.policies == s.policies[(user, automation) := DefaultPolicy("Free")]
  {
    hide Usage, DefaultPolicy, RunKey, KeyTaken;
    var now, task := Stamp(month, day, 0), DayTask(user, automation, day, credits);
    NothingUsedSince(s.reservations, user, automation, SinceDay(now));
    DaysKeyIsFree(s.reservations, month, day);
    ReservesWithRoom(s, task, now);
    UsageSnoc(s.reservations, ReservationOf(task, now), user, automation, SinceMonth(month));
    UsageSnoc(s.reservations, ReservationOf(task, now), user, automation, InMonth(month));
  }

  lemma {:induction false} DailyReservesUse(user: string, automation: string, month: int, days: nat)
    requires days <= 15 && automation != [] && |automation| <= 120
    ensures var s := Run(Stamp(month, 1, 0), DailyReserves(user, automation, month, days));
            UsedBefore(s, user, automation, month, days + 1, 20 * days) && |s.reservations| == days
  {
    hide UsedBefore, ReserveEvents, RunFrom, Run;
    if days == 0 {
      NothingUsedYet(user, automation, month);
    } else {
      DailyReservesUse(user, automation, month, days - 1);
      var s := Run(Stamp(month, 1, 0), DailyReserves(user, automation, month, days - 1));
      ReservesOneMoreDay(s, user, automation, month, days, 20 * (days - 1), 20);
      RunConcat(Stamp(month, 1, 0), DailyReserves(user, automation, month, days - 1),
                ReserveEvents(DayTask(user, automation, days, 20), Stamp(month, days, 0)));
    }
  }

  lemma NothingUsedYet(user: string, automation: string, month: int)
    ensures UsedBefore(Db(Stamp(month, 1, 0), map[], [], map[]), user, automation, month, 1, 0)
    ensures Run(Stamp(month, 1, 0), []) == Db(Stamp(month, 1, 0), map[], [], map[])
  {
  }

  lemma FreeLimits()
    ensures DefaultPolicy("Free").daily == 20 && DefaultPolicy("Free").monthly == 300
  {
  }

  /** The runs below, on the free plan with its 20 credits a day and 300 a month. */
  function DayOverrun(user: string, automation: string, now: Stamp): seq<Event> {
    ReserveEvents(Task(user, automation, RunKey(1), 20, true), now) + [Event(now, Settle(0, 25, true, 100))]
  }

  function MonthReserves(user: string, automation: string, month: int): seq<Event> {
    DailyReserves(user, automation, month, 14)
    + ReserveEvents(DayTask(user, automation, 15, 15), Stamp(month, 15, 0))
    + ReserveEvents(DayTask(user, automation, 16, 5), Stamp(month, 16, 0))
  }

  function MonthOverrun(user: string, automation: string, month: int): seq<Event> {
    MonthReserves(user, automation, month) + [Event(Stamp(month, 16, 0), Settle(15, 10, true, 100))]
  }

  /** The last event of a run settles a row for more than was reserved. */
  lemma SettlesLast(start: Stamp, events: seq<Event>, now: Stamp, row: nat, actual: int, window: Window)
    requires var s := Run(start, events);
             && Upto(s.clock, now) && s.open == map[] && row < |s.reservations|
             && s.reservations[row].status == Reserved && Within(window, s.reservations[row].created)
             && 0 <= s.reservations[row].reserved < actual <= s.reservations[row].reserved + 100
    ensures var s, t := Run(start, events), Run(start, events + [Event(now, Settle(row, actual, true, 100))]);
            var r := s.reservations[row];
            && t.policies == s.policies
            && Usage(t.reservations, r.user, r.automation, window)
               == Usage(s.reservations, r.user, r.automation, window) + actual - r.reserved
  {
    hide Usage, Within, Sound, Upto, SettledRow, Amount;
    var s, e := Run(start, events), Event(now, Settle(row, actual, true, 100));
    assert (events + [e])[..|events|] == events;
    RunIsSound(start, events);
    TickKeeps(s, now);
    var t := Ticked(s, now);
    SettledRowIsTheRow(t.reservations[row], actual, true, 100);
    FinishesARow(t, row, actual);
    SettlementMovesUsage(t, row, actual, true, 100, window);
    assert Run(start, events + [e]) == Settling(t, row, actual, true, 100);
  }

  lemma FinishesARow(s: Db, row: nat, actual: int)
    requires row < |s.reservations| && s.reservations[row].status == Reserved && s.open == map[]
    ensures Settling(s, row, actual, true, 100) != s
    ensures Settling(s, row, actual, true, 100).policies == s.policies
  {
    var t := Settling(s, row, actual, true, 100);
    assert t.reservations[row].status != Reserved;
  }

  /** A policy stored where an automation's key is clipped is the one it is held to. */
  lemma HeldTo(s: Db, user: string, automation: string, at: Stamp)
    requires Sound(s) && (user, Clipped(automation)) in s.policies
    ensures Capped(s, user, automation, at) <==>
            Allows(s.policies[(user, Clipped(automation))], s.reservations, user, automation, at)
  {
    hide Usage, Sound;
    AddressIsClipped(s, user, automation);
  }

  /** A first task, of any automation however long its key, with nothing used before. */
  lemma ReservesFirst(t: Task, now: Stamp)
    requires t.automation != [] && 0 <= t.credits <= 20
    ensures Run(now, ReserveEvents(t, now)) ==
            Db(now, map[Slot(t) := DefaultPolicy("Free")], [ReservationOf(t, now)], map[])
  {
    hide Usage, RunFrom, ReserveEvents, DefaultPolicy;
    var empty := Db(now, map[], [], map[]);
    NothingUsedSince([], t.user, t.automation, SinceDay(now));
    NothingUsedSince([], t.user, t.automation, SinceMonth(now.month));
    ReservesWithRoom(empty, t, now);
    RunConcat(now, [], ReserveEvents(t, now));
    assert [] + ReserveEvents(t, now) == ReserveEvents(t, now);
    assert [] + [ReservationOf(t, now)] == [ReservationOf(t, now)];
  }

  /** Reserving the day's 20 credits and settling 25 leaves any automation above its daily limit, also
      one whose key is clipped. */
  lemma OverrunExceedsLimit(user: string, automation: string, now: Stamp)
    requires automation != []
    ensures !Capped(Run(now, DayOverrun(user, automation, now)), user, automation, now)
  {
    hide Usage, RunFrom, DefaultPolicy, ReserveEvents, Sound, Capped, RunKey;
    FreeLimits();
    var task := Task(user, automation, RunKey(1), 20, true);
    ReservesFirst(task, now);
    var r := ReservationOf(task, now);
    UsageSnoc([], r, user, automation, OnDay(now));
    NothingUsedSince([], user, automation, OnDay(now));
    assert [] + [r] == [r];
    SettlesLast(now, ReserveEvents(task, now), now, 0, 25, OnDay(now));
    RunIsSound(now, DayOverrun(user, automation, now));
    HeldTo(Run(now, DayOverrun(user, automation, now)), user, automation, now);
  }

  lemma MonthIsReserved(user: string, automation: string, month: int)
    requires automation != [] && |automation| <= 120
    ensures var s := Run(Stamp(month, 1, 0), MonthReserves(user, automation, month));
            var task := DayTask(user, automation, 16, 5);
            && s.clock == Stamp(month, 16, 0) && s.open == map[] && |s.reservations| == 16
            && s.reservations[15] == ReservationOf(task, Stamp(month, 16, 0))
            && (user, automation) in s.policies && s.policies[(user, automation)] == DefaultPolicy("Free")
            && Usage(s.reservations, user, automation, InMonth(month)) == 300
            && Usage(s.reservations, user, automation, OnDay(Stamp(month, 16, 0))) == 5
  {
    hide Usage, RunFrom, DefaultPolicy, ReserveEvents, UsedBefore, RunKey;
    var start, now := Stamp(month, 1, 0), Stamp(month, 16, 0);
    var task := DayTask(user, automation, 16, 5);
    var first := ReserveEvents(DayTask(user, automation, 15, 15), Stamp(month, 15, 0));
    var second := ReserveEvents(task, now);
    var days := DailyReserves(user, automation, month, 14);
    DailyReservesUse(user, automation, month, 14);
    ReservesOneMoreDay(Run(start, days), user, automation, month, 15, 280, 15);
    RunConcat(start, days, first);
    var b := Run(start, days + first);
    ReservesOneMoreDay(b, user, automation, month, 16, 295, 5);
    RunConcat(start, days + first, second);
    UsedMeans(b, user, automation, month, 16, 295);
    UsedMeans(Run(start, days + first + second), user, automation, month, 17, 300);
    NothingUsedSince(b.reservations, user, automation, OnDay(now));
    UsageSnoc(b.reservations, ReservationOf(task, now), user, automation, OnDay(now));
  }

  /** Reserving 20 on each of fourteen days, 15 on the next and 5 on the one after, and settling those
      5 at 10, stays within every day and leaves the automation above its monthly limit. */
  lemma OverrunExceedsMonth(user: string, automation: string, month: int)
    requires automation != [] && |automation| <= 120
    ensures var s := Run(Stamp(month, 1, 0), MonthOverrun(user, automation, month));
            && !Capped(s, user, automation, Stamp(month, 16, 0))
            && Usage(s.reservations, user, automation, OnDay(Stamp(month, 16, 0))) == 10
  {
    hide Usage, DefaultPolicy, MonthReserves, Capped, Sound, RunKey, Run;
    FreeLimits();
    var start, now := Stamp(month, 1, 0), Stamp(month, 16, 0);
    MonthIsReserved(user, automation, month);
    SettlesLast(start, MonthReserves(user, automation, month), now, 15, 10, InMonth(month));
    SettlesLast(start, MonthReserves(user, automation, month), now, 15, 10, OnDay(now));
    RunIsSound(start, MonthOverrun(user, automation, month));
    HeldTo(Run(start, MonthOverrun(user, automation, month)), user, automation, now);
  }

  lemma UsedMeans(s: Db, user: string, automation: string, month: int, day: int, credits: int)
    requires UsedBefore(s, user, automation, month, day, credits)
    ensures s.open == map[] && Usage(s.reservations, user, automation, InMonth(month)) == credits
    ensures forall r :: r in s.reservations ==> r.created.month == month && r.created.day < day
  {
    hide Usage, RunKey;
  }

  /** With usage not enforced nothing is reserved, so the day's 20 credits pass the check twice, and
      settling both leaves the automation at 40. */
  function Unpaid(user: string, automation: string, run: nat): Task {
    Task(user, automation, RunKey(run), 20, false)
  }

  function UnenforcedReserves(user: string, automation: string, now: Stamp): seq<Event> {
    ReserveEvents(Unpaid(user, automation, 1), now) + ReserveEvents(Unpaid(user, automation, 2), now)
  }

  function Unenforced(user: string, automation: string, now: Stamp): seq<Event> {
    UnenforcedReserves(user, automation, now)
    + [Event(now, Settle(0, 20, false, 0))] + [Event(now, Settle(1, 20, false, 0))]
  }

  function SettledAt20(r: Reservation): Reservation { r.(status := Settled, settlement := Final(20)) }

  lemma UnenforcedExceedsLimit(user: string, automation: string, now: Stamp)
    requires automation != [] && |automation| <= 120
    ensures !Capped(Run(now, Unenforced(user, automation, now)), user, automation, now)
  {
    hide Usage, RunFrom, ReserveEvents, DefaultPolicy, UnenforcedReserves, RunKey, Sound, Capped;
    FreeLimits();
    var a, b := ReservationOf(Unpaid(user, automation, 1), now), ReservationOf(Unpaid(user, automation, 2), now);
    var c, d := SettledAt20(a), SettledAt20(b);
    UnenforcedTwice(user, automation, now);
    var reserves := UnenforcedReserves(user, automation, now);
    var s := Run(now, reserves);
    var one, two := Event(now, Settle(0, 20, false, 0)), Event(now, Settle(1, 20, false, 0));
    assert (reserves + [one])[..|reserves|] == reserves;
    assert (reserves + [one] + [two])[..|reserves + [one]|] == reserves + [one];
    var t := Run(now, reserves + [one]);
    assert t == Step(s, one) && t.reservations == [c, b];
    assert Run(now, Unenforced(user, automation, now)) == Step(t, two);
    assert Step(t, two).reservations == [c, d];
    NothingUsedSince([], user, automation, OnDay(now));
    UsageSnoc([], c, user, automation, OnDay(now));
    UsageSnoc([c], d, user, automation, OnDay(now));
    assert [] + [c] == [c] && [c] + [d] == [c, d];
    RunIsSound(now, Unenforced(user, automation, now));
    HeldTo(Step(t, two), user, automation, now);
  }

  lemma UnenforcedTwice(user: string, automation: string, now: Stamp)
    requires automation != [] && |automation| <= 120
    ensures var a := ReservationOf(Unpaid(user, automation, 1), now);
            var b := ReservationOf(Unpaid(user, automation, 2), now);
            Run(now, UnenforcedReserves(user, automation, now))
            == Db(now, map[(user, automation) := DefaultPolicy("Free")], [a, b], map[])
  {
    hide Usage, RunFrom, ReserveEvents, DefaultPolicy, RunKey;
    var first, second := Unpaid(user, automation, 1), Unpaid(user, automation, 2);
    var a, b := ReservationOf(first, now), ReservationOf(second, now);
    ReservesFirst(first, now);
    NothingUsedSince([], user, automation, SinceDay(now));
    NothingUsedSince([], user, automation, SinceMonth(now.month));
    assert [] + [a] == [a] && [a] + [b] == [a, b];
    UsageSnoc([], a, user, automation, SinceDay(now));
    UsageSnoc([], a, user, automation, SinceMonth(now.month));
    KeysDiffer(a);
    ReservesWithRoom(Run(now, ReserveEvents(first, now)), second, now);
    RunConcat(now, ReserveEvents(first, now), ReserveEvents(second, now));
  }

  lemma KeysDiffer(r: Reservation)
    requires r.key == RunKey(1)
    ensures !KeyTaken([r], RunKey(2))
  {
    hide RunKey;
    if RunKey(1) == RunKey(2) {
      RunKeyInjective(1, 2);
    }
  }
}
