/** Reservations and budget checks as a state machine.  A reservation for an automation holds its user's row lock
    from the budget check until it commits; settlements of other reservations need that lock only
    when they change the account's balance. */
module BudgetRuns {
  import opened CreditWindows
  import opened Budgets

  /** The reservation of an open transaction, once it is flushed. */
  datatype Insertion = NotYet | Flushed(reservation: Reservation)

  /** A check that was passed and is not committed yet. */
  datatype Admission = Admission(
    plan: string,
    automation: string,
    key: string,
    credits: int,
    at: Stamp,
    insertion: Insertion)

  datatype Db = Db(clock: Stamp, policies: Policies, reservations: seq<Reservation>, open: map<string, Admission>)

  datatype Action =
    | CheckFor(user: string, admission: Admission)
    | Insert(user: string, enforced: bool)
    | Commit(user: string)
    | Rollback(user: string)
    | Plain(user: string, key: string, credits: int)
    | Settle(row: nat, actual: int, enforced: bool, balance: int)
    | Refund(row: nat)
    | Pause(user: string, plan: string, automation: string, reason: string)

  datatype Event = Event(now: Stamp, action: Action)

  predicate KeyTaken(rows: seq<Reservation>, key: string) { exists r :: r in rows && r.key == key }

  predicate OwnKey(rows: seq<Reservation>, user: string, key: string) {
    exists r :: r in rows && r.user == user && r.key == key
  }

  /** The check: a repeated key is answered with its reservation, and a rejected check is rolled back by
      its caller. */
  function Checking(s: Db, user: string, a: Admission): Db {
    if user in s.open || a.automation == [] || OwnKey(s.reservations, user, a.key) then s
    else if Check(s.policies, s.reservations, user, a.plan, a.automation, a.credits, s.clock) != Admitted then s
    else s.(open := s.open[user := a.(at := s.clock, insertion := NotYet)])
  }

  function Closed(s: Db, user: string): Db { s.(open := s.open - {user}) }

  /** Stamps and flushes the reservation; with usage not enforced nothing is reserved, and a
      negative amount is refused. */
  function Inserting(s: Db, user: string, enforced: bool): Db {
    if user !in s.open || s.open[user].insertion.Flushed? || s.open[user].credits < 0 then s
    else
      var a := s.open[user];
      var r := Reservation(
        user, a.automation, a.key, Reserved, if enforced then a.credits else 0, Open, s.clock);
      s.(open := s.open[user := a.(insertion := Flushed(r))])
  }

  function Rows(a: Admission): seq<Reservation> {
    if a.insertion.Flushed? then [a.insertion.reservation] else []
  }

  /** The reservation's key was committed by another user first. */
  predicate Clash(s: Db, user: string)
    requires user in s.open
  {
    exists r :: r in Rows(s.open[user]) && KeyTaken(s.reservations, r.key)
  }

  /** The reservation, if there is one, and the policy become visible, or nothing when its key is taken. */
  function Committing(s: Db, user: string): Db {
    if user !in s.open then s
    else if Clash(s, user) then Closed(s, user)
    else
      var a := s.open[user];
      Closed(s, user).(
        policies := Getting(s.policies, user, a.plan, a.automation),
        reservations := s.reservations + Rows(a))
  }

  function Reserving(s: Db, user: string, key: string, credits: int): Db {
    if user in s.open || credits < 0 || KeyTaken(s.reservations, key) then s
    else s.(reservations := s.reservations + [Reservation(user, "", key, Reserved, credits, Open, s.clock)])
  }

  /** Whether a row can be finished now: it is reserved, and the lock is free if it is needed. */
  predicate CanFinish(s: Db, row: nat, needsLock: bool) {
    && row < |s.reservations| && s.reservations[row].status == Reserved
    && (needsLock ==> s.reservations[row].user !in s.open)
  }

  function Settling(s: Db, row: nat, actual: int, enforced: bool, balance: int): Db {
    if !CanFinish(s, row, row < |s.reservations| && Requested(actual) != s.reservations[row].reserved) then s
    else s.(reservations := s.reservations[row := SettledRow(s.reservations[row], actual, enforced, balance)])
  }

  function Refunding(s: Db, row: nat): Db {
    if !CanFinish(s, row, true) then s
    else s.(reservations := s.reservations[row := RefundedRow(s.reservations[row])])
  }

  function Pausing(s: Db, user: string, plan: string, automation: string, reason: string): Db {
    if user in s.open || automation == [] || !CanGet(s.policies, user, automation) then s
    else s.(policies := Paused(Getting(s.policies, user, plan, automation),
                               Address(s.policies, user, automation), Clipped(reason)))
  }

  function Act(s: Db, action: Action): Db {
    match action
    case CheckFor(user, admission) => Checking(s, user, admission)
    case Insert(user, enforced) => Inserting(s, user, enforced)
    case Commit(user) => Committing(s, user)
    case Rollback(user) => Closed(s, user)
    case Plain(user, key, credits) => Reserving(s, user, key, credits)
    case Settle(row, actual, enforced, balance) => Settling(s, row, actual, enforced, balance)
    case Refund(row) => Refunding(s, row)
    case Pause(user, plan, automation, reason) => Pausing(s, user, plan, automation, reason)
  }

  function Ticked(s: Db, now: Stamp): Db { if Upto(s.clock, now) then s.(clock := now) else s }

  function Step(s: Db, event: Event): Db { Act(Ticked(s, event.now), event.action) }

  function Run(start: Stamp, events: seq<Event>): Db {
    if events == [] then Db(start, map[], [], map[])
    else Step(Run(start, events[..|events| - 1]), events[|events| - 1])
  }

  /** What a settlement charges: an overrun in full, unless the account cannot pay it. */
  function Charged(r: Reservation, actual: int, enforced: bool, balance: int): int {
    var requested := Requested(actual);
    if requested > r.reserved && enforced && balance < requested - r.reserved then r.reserved else requested
  }

  /** The settlement, if it is one of this automation, charges beyond the reservation no more than is
      left of the day and of the month the reservation was made in. */
  predicate FitsBudget(s: Db, action: Action, user: string, automation: string) {
    action.Settle? && Address(s.policies, user, automation) in s.policies
    && Settling(s, action.row, action.actual, action.enforced, action.balance) != s
    && s.reservations[action.row].user == user && s.reservations[action.row].automation == automation ==>
      var r, policy := s.reservations[action.row], s.policies[Address(s.policies, user, automation)];
      var excess := Charged(r, action.actual, action.enforced, action.balance) - r.reserved;
      && excess <= policy.daily - Usage(s.reservations, user, automation, OnDay(r.created))
      && excess <= policy.monthly - Usage(s.reservations, user, automation, InMonth(r.created.month))
  }

  predicate EverySettlementFits(start: Stamp, events: seq<Event>, user: string, automation: string) {
    forall i :: 0 <= i < |events| ==> FitsBudget(Run(start, events[..i]), events[i].action, user, automation)
  }

  // ------------------------------------------------------------------------- invariants

  predicate SoundRow(s: Db, r: Reservation) {
    && r.reserved >= 0 && Amount(r) >= 0 && Upto(r.created, s.clock)
    && (r.status == Reserved ==> r.settlement == Open)
    && (r.automation != [] ==> (r.user, Clipped(r.automation)) in s.policies)
  }

  predicate SoundPolicies(policies: Policies) {
    forall address :: address in policies ==>
      address.1 != [] && |address.1| <= 120 && policies[address].daily >= 0 && policies[address].monthly >= 0
  }

  /** The policy a check used: the stored one, or the one it would create. */
  function PolicyOf(policies: Policies, user: string, a: Admission): Policy {
    if (user, a.automation) in policies then policies[(user, a.automation)] else DefaultPolicy(a.plan)
  }

  /** A flushed row is the admission's own, reserves no more than was checked, and is no earlier
      than the check. */
  predicate SoundInsertion(s: Db, user: string, a: Admission) {
    a.insertion.Flushed? ==>
      var r := a.insertion.reservation;
      && r.user == user && r.automation == a.automation && r.status == Reserved && r.settlement == Open
      && 0 <= r.reserved <= a.credits
      && Upto(a.at, r.created) && Upto(r.created, s.clock)
  }

  /** An open admission still fits its limits. */
  predicate StillFits(s: Db, user: string)
    requires user in s.open
  {
    var a := s.open[user];
    var policy := PolicyOf(s.policies, user, a);
    && a.automation != [] && Upto(a.at, s.clock) && SoundInsertion(s, user, a)
    && CanGet(s.policies, user, a.automation)
    && !policy.paused
    && Usage(s.reservations, user, a.automation, SinceDay(a.at)) + a.credits <= policy.daily
    && Usage(s.reservations, user, a.automation, SinceMonth(a.at.month)) + a.credits <= policy.monthly
  }

  predicate Sound(s: Db) {
    && SoundPolicies(s.policies)
    && (forall r :: r in s.reservations ==> SoundRow(s, r))
    && forall user :: user in s.open ==> StillFits(s, user)
  }

  /** Usage within the limits on the day and in the month of a moment. */
  predicate Capped(s: Db, user: string, automation: string, at: Stamp) {
    var address := Address(s.policies, user, automation);
    address in s.policies ==>
      && Usage(s.reservations, user, automation, OnDay(at)) <= s.policies[address].daily
      && Usage(s.reservations, user, automation, InMonth(at.month)) <= s.policies[address].monthly
  }

  // ------------------------------------------------------------------------ usage facts

  lemma ChargesSnoc(rows: seq<Reservation>, r: Reservation)
    ensures Charges(rows + [r]) == Charges(rows) + [ChargeOf(r)]
  {
  }

  lemma UsageSnoc(rows: seq<Reservation>, r: Reservation, user: string, automation: string, window: Window)
    ensures Usage(rows + [r], user, automation, window) ==
              Usage(rows, user, automation, window) + Counted(ChargeOf(r), user, automation, window)
  {
    hide Total, Counted, ChargeOf;
    ChargesSnoc(rows, r);
    TotalConcat(Charges(rows), [ChargeOf(r)], user, automation, window);
    TotalOfOne(ChargeOf(r), user, automation, window);
  }

  /** Finishing a reservation moves the usage of its windows by exactly the change of its amount. */
  lemma UsageUpdate(rows: seq<Reservation>, row: nat, r: Reservation, user: string, automation: string, window: Window)
    requires row < |rows|
    ensures Usage(rows[row := r], user, automation, window) ==
              Usage(rows, user, automation, window)
              - Counted(ChargeOf(rows[row]), user, automation, window) + Counted(ChargeOf(r), user, automation, window)
  {
    hide Total, Counted, ChargeOf;
    assert Charges(rows[row := r]) == Charges(rows)[row := ChargeOf(r)];
    TotalUpdate(Charges(rows), row, ChargeOf(r), user, automation, window);
  }

  lemma {:induction false} NoRowsNoTotal(rows: seq<Charge>, user: string, kind: string, window: Window)
    requires forall row :: row in rows ==> row.user != user || row.kind != kind
    ensures Total(rows, user, kind, window) == 0
  {
    if rows != [] {
      NoRowsNoTotal(rows[..|rows| - 1], user, kind, window);
      assert rows[|rows| - 1] in rows;
    }
  }

  /** Stored keys fit their column, so a policy is found at the first 120 characters of its key. */
  lemma AddressIsClipped(s: Db, user: string, automation: string)
    requires Sound(s)
    ensures Address(s.policies, user, automation) == (user, Clipped(automation))
  {
    hide StillFits, SoundRow;
  }

  /** Nothing is charged to an automation before it has a policy. */
  lemma UnknownIsUnused(s: Db, user: string, automation: string, window: Window)
    requires Sound(s) && automation != [] && (user, Clipped(automation)) !in s.policies
    ensures Usage(s.reservations, user, automation, window) == 0
  {
    hide Total, StillFits, SoundPolicies;
    var charges := Charges(s.reservations);
    forall c | c in charges
      ensures c.user != user || c.kind != automation
    {
      var i :| 0 <= i < |charges| && charges[i] == c;
      assert SoundRow(s, s.reservations[i]);
    }
    NoRowsNoTotal(charges, user, automation, window);
  }

  // -------------------------------------------------------------------- keeping it sound

  /** The policies of one user are untouched. */
  ghost predicate SameFor(p: Policies, q: Policies, user: string) {
    forall automation ::
      && ((user, automation) in p <==> (user, automation) in q)
      && ((user, automation) in p ==> p[(user, automation)] == q[(user, automation)])
  }

  lemma StillFitsOn(s: Db, t: Db, user: string)
    requires user in s.open && StillFits(s, user) && user in t.open && t.open[user] == s.open[user]
    requires Upto(s.clock, t.clock) && SameFor(s.policies, t.policies, user)
    requires var a := s.open[user];
             && Usage(t.reservations, user, a.automation, SinceDay(a.at))
                <= Usage(s.reservations, user, a.automation, SinceDay(a.at))
             && Usage(t.reservations, user, a.automation, SinceMonth(a.at.month))
                <= Usage(s.reservations, user, a.automation, SinceMonth(a.at.month))
    ensures StillFits(t, user)
  {
    hide Usage, DefaultPolicy;
  }

  lemma GettingKeepsPolicies(policies: Policies, user: string, plan: string, automation: string)
    requires SoundPolicies(policies) && automation != []
    ensures SoundPolicies(Getting(policies, user, plan, automation))
    ensures forall other :: other != user ==> SameFor(policies, Getting(policies, user, plan, automation), other)
  {
  }

  lemma TickKeeps(s: Db, now: Stamp)
    requires Sound(s)
    ensures Sound(Ticked(s, now))
  {
    hide Usage, DefaultPolicy, SoundPolicies, Getting;
    var t := Ticked(s, now);
    forall user | user in t.open
      ensures StillFits(t, user)
    {
      StillFitsOn(s, t, user);
    }
  }

  lemma CheckingKeeps(s: Db, user: string, a: Admission)
    requires Sound(s)
    ensures Sound(Checking(s, user, a))
  {
    hide Usage, DefaultPolicy, SoundPolicies, Getting;
    var t := Checking(s, user, a);
    forall other | other in t.open
      ensures StillFits(t, other)
    {
      if other != user || user in s.open {
        StillFitsOn(s, t, other);
      }
    }
  }

  lemma ClosingKeeps(s: Db, user: string)
    requires Sound(s)
    ensures Sound(Closed(s, user))
  {
    hide Usage, DefaultPolicy, SoundPolicies, Getting;
    forall other | other in Closed(s, user).open
      ensures StillFits(Closed(s, user), other)
    {
      StillFitsOn(s, Closed(s, user), other);
    }
  }

  lemma InsertingKeeps(s: Db, user: string, enforced: bool)
    requires Sound(s)
    ensures Sound(Inserting(s, user, enforced))
  {
    hide Usage, DefaultPolicy, SoundPolicies, Getting;
    var t := Inserting(s, user, enforced);
    forall other | other in t.open
      ensures StillFits(t, other)
    {
      assert StillFits(s, other);
      if other != user {
        StillFitsOn(s, t, other);
      }
    }
  }

  /** A row of one user changes nothing another user's admission was decided on. */
  lemma OtherAdmission(s: Db, user: string, other: string)
    requires Sound(s) && user in s.open && other in s.open && other != user
    ensures var b := s.open[other];
            && Usage(s.reservations + Rows(s.open[user]), other, b.automation, SinceDay(b.at))
               == Usage(s.reservations, other, b.automation, SinceDay(b.at))
            && Usage(s.reservations + Rows(s.open[user]), other, b.automation, SinceMonth(b.at.month))
               == Usage(s.reservations, other, b.automation, SinceMonth(b.at.month))
  {
    hide Usage, DefaultPolicy, SoundPolicies;
    var a, b := s.open[user], s.open[other];
    assert StillFits(s, user);
    if a.insertion.Flushed? {
      UsageSnoc(s.reservations, a.insertion.reservation, other, b.automation, SinceDay(b.at));
      UsageSnoc(s.reservations, a.insertion.reservation, other, b.automation, SinceMonth(b.at.month));
    } else {
      assert s.reservations + [] == s.reservations;
    }
  }

  lemma CommittingKeeps(s: Db, user: string)
    requires Sound(s)
    ensures Sound(Committing(s, user))
  {
    hide Usage, DefaultPolicy, SoundPolicies;
    var t := Committing(s, user);
    if user in s.open {
      var a := s.open[user];
      assert StillFits(s, user);
      GettingKeepsPolicies(s.policies, user, a.plan, a.automation);
      forall other | other in t.open
        ensures StillFits(t, other)
      {
        OtherAdmission(s, user, other);
        StillFitsOn(s, t, other);
      }
      RowsStaySound(s, t);
    }
  }

  lemma RowsStaySound(s: Db, t: Db)
    requires forall r :: r in s.reservations ==> SoundRow(s, r)
    requires s.policies.Keys <= t.policies.Keys && Upto(s.clock, t.clock)
    ensures forall r :: r in s.reservations ==> SoundRow(t, r)
  {
  }

  lemma ReservingKeeps(s: Db, user: string, key: string, credits: int)
    requires Sound(s)
    ensures Sound(Reserving(s, user, key, credits))
  {
    hide Usage, DefaultPolicy, SoundPolicies, Getting;
    var t := Reserving(s, user, key, credits);
    if t != s {
      forall other | other in t.open
        ensures StillFits(t, other)
      {
        var b := s.open[other];
        UsageSnoc(s.reservations, t.reservations[|s.reservations|], other, b.automation, SinceDay(b.at));
        UsageSnoc(s.reservations, t.reservations[|s.reservations|], other, b.automation, SinceMonth(b.at.month));
        StillFitsOn(s, t, other);
      }
      RowsStaySound(s, t);
    }
  }

  /** Finishing a row while its user's lock is held leaves its amount as it is. */
  lemma FinishingKeeps(s: Db, row: nat, r: Reservation)
    requires Sound(s) && row < |s.reservations| && s.reservations[row].status == Reserved
    requires r == s.reservations[row].(status := r.status, settlement := r.settlement) && r.status != Reserved
    requires Amount(r) >= 0
    requires s.reservations[row].user in s.open ==> Amount(r) == s.reservations[row].reserved
    ensures Sound(s.(reservations := s.reservations[row := r]))
  {
    hide Usage, DefaultPolicy, SoundPolicies, Getting;
    var t := s.(reservations := s.reservations[row := r]);
    assert SoundRow(s, s.reservations[row]);
    forall other | other in t.open
      ensures StillFits(t, other)
    {
      var b := s.open[other];
      UsageUpdate(s.reservations, row, r, other, b.automation, SinceDay(b.at));
      UsageUpdate(s.reservations, row, r, other, b.automation, SinceMonth(b.at.month));
      StillFitsOn(s, t, other);
    }
    RowsStaySound(s, t);
  }

  lemma PausingKeeps(s: Db, user: string, plan: string, automation: string, reason: string)
    requires Sound(s)
    ensures Sound(Pausing(s, user, plan, automation, reason))
  {
    hide Usage, Clipped;
    var t := Pausing(s, user, plan, automation, reason);
    if t != s {
      PausedPolicies(s.policies, user, plan, automation, Clipped(reason));
      forall other | other in t.open
        ensures StillFits(t, other)
      {
        StillFitsOn(s, t, other);
      }
      RowsStaySound(s, t);
    }
  }

  lemma PausedPolicies(policies: Policies, user: string, plan: string, automation: string, reason: string)
    requires SoundPolicies(policies) && automation != []
    ensures var q := Paused(Getting(policies, user, plan, automation), Address(policies, user, automation), reason);
            && SoundPolicies(q) && policies.Keys <= q.Keys
            && (forall other :: other != user ==> SameFor(policies, q, other))
  {
  }

  lemma EveryRowIsSound(s: Db, row: nat)
    requires Sound(s) && row < |s.reservations|
    ensures SoundRow(s, s.reservations[row])
  {
  }

  lemma StepKeepsSound(s: Db, event: Event)
    requires Sound(s)
    ensures Sound(Step(s, event))
  {
    hide Sound, Checking, Inserting, Committing, Reserving, Pausing;
    TickKeeps(s, event.now);
    var t := Ticked(s, event.now);
    match event.action
    case CheckFor(user, admission) => CheckingKeeps(t, user, admission);
    case Insert(user, enforced) => InsertingKeeps(t, user, enforced);
    case Commit(user) => CommittingKeeps(t, user);
    case Rollback(user) => ClosingKeeps(t, user);
    case Plain(user, key, credits) => ReservingKeeps(t, user, key, credits);
    case Settle(row, actual, enforced, balance) =>
      if Settling(t, row, actual, enforced, balance) != t {
        EveryRowIsSound(t, row);
        FinishingKeeps(t, row, SettledRow(t.reservations[row], actual, enforced, balance));
      }
    case Refund(row) =>
      if Refunding(t, row) != t {
        FinishingKeeps(t, row, RefundedRow(t.reservations[row]));
      }
    case Pause(user, plan, automation, reason) => PausingKeeps(t, user, plan, automation, reason);
  }

  lemma {:induction false} RunIsSound(start: Stamp, events: seq<Event>)
    ensures Sound(Run(start, events))
  {
    hide Sound, Step;
    if events == [] {
      NothingAtStart(start);
    } else {
      RunIsSound(start, events[..|events| - 1]);
      StepKeepsSound(Run(start, events[..|events| - 1]), events[|events| - 1]);
    }
  }

  lemma NothingAtStart(start: Stamp)
    ensures Sound(Db(start, map[], [], map[]))
  {
  }
}
