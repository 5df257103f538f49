/** What budget limits, pauses and long keys amount to over runs. */
module BudgetLaws {
  import opened CreditWindows
  import opened Budgets
  import opened BudgetRuns

  // ----------------------------------------------------------------------------- limits

  /** Usage of a window within a limit, given the limit only applies once there is a policy. */
  lemma NewPolicyIsUnused(s: Db, user: string, automation: string, at: Stamp)
    requires Sound(s) && automation != [] && (user, Clipped(automation)) !in s.policies
    ensures Usage(s.reservations, user, automation, OnDay(at)) == 0
    ensures Usage(s.reservations, user, automation, InMonth(at.month)) == 0
  {
    UnknownIsUnused(s, user, automation, OnDay(at));
    UnknownIsUnused(s, user, automation, InMonth(at.month));
  }

  /** A row that does not count towards an automation. */
  lemma OtherRow(s: Db, r: Reservation, user: string, automation: string, at: Stamp)
    requires r.user != user || r.automation != automation
    ensures Usage(s.reservations + [r], user, automation, OnDay(at))
         == Usage(s.reservations, user, automation, OnDay(at))
    ensures Usage(s.reservations + [r], user, automation, InMonth(at.month))
         == Usage(s.reservations, user, automation, InMonth(at.month))
  {
    hide Usage;
    UsageSnoc(s.reservations, r, user, automation, OnDay(at));
    UsageSnoc(s.reservations, r, user, automation, InMonth(at.month));
  }

  lemma AmountsAreNonNegative(s: Db)
    requires Sound(s)
    ensures NonNegative(Charges(s.reservations))
  {
    hide StillFits, SoundPolicies;
    var charges := Charges(s.reservations);
    forall c | c in charges
      ensures c.credits >= 0
    {
      var i :| 0 <= i < |charges| && charges[i] == c;
      assert SoundRow(s, s.reservations[i]);
    }
  }

  /** The flushed row of an open admission fits the limits: the sums it was checked on already cover
      the day and month it falls in. */
  lemma AdmittedRowFits(s: Db, user: string, at: Stamp)
    requires Sound(s) && user in s.open && s.open[user].insertion.Flushed?
    requires var a, p := s.open[user], PolicyOf(s.policies, user, s.open[user]);
             && Usage(s.reservations, user, a.automation, OnDay(at)) <= p.daily
             && Usage(s.reservations, user, a.automation, InMonth(at.month)) <= p.monthly
    ensures var a, p := s.open[user], PolicyOf(s.policies, user, s.open[user]);
            && Usage(s.reservations + Rows(a), user, a.automation, OnDay(at)) <= p.daily
            && Usage(s.reservations + Rows(a), user, a.automation, InMonth(at.month)) <= p.monthly
  {
    assert StillFits(s, user);
    hide Total, SoundPolicies, SoundRow, DefaultPolicy, Sound;
    var a := s.open[user];
    var p, r := PolicyOf(s.policies, user, a), a.insertion.reservation;
    AmountsAreNonNegative(s);
    ChargesSnoc(s.reservations, r);
    RowFits(Charges(s.reservations), ChargeOf(r), OnDay(at), SinceDay(a.at), p.daily);
    RowFits(Charges(s.reservations), ChargeOf(r), InMonth(at.month), SinceMonth(a.at.month), p.monthly);
  }

  lemma FlushedIsOwn(s: Db, user: string)
    requires Sound(s) && user in s.open && s.open[user].insertion.Flushed?
    ensures var r := s.open[user].insertion.reservation; r.user == user && r.automation == s.open[user].automation
  {
    assert StillFits(s, user);
  }

  lemma ClosingKeepsCaps(s: Db, who: string, user: string, automation: string, at: Stamp)
    requires Capped(s, user, automation, at)
    ensures Capped(Closed(s, who), user, automation, at)
  {
    hide Usage;
  }

  /** The policies a commit leaves: the stored ones, and the one its own check used. */
  lemma CommittedPolicy(s: Db, who: string, user: string, automation: string)
    requires Sound(s) && who in s.open
    ensures var a, key := s.open[who], (user, Clipped(automation));
            var q := Getting(s.policies, who, a.plan, a.automation);
            && (key in s.policies ==> key in q && q[key] == s.policies[key])
            && (key in q && key !in s.policies ==> q[key] == DefaultPolicy(a.plan) && automation != [])
            && (user == who && automation == a.automation ==> key in q && q[key] == PolicyOf(s.policies, who, a))
  {
    hide Usage, DefaultPolicy, Clipped;
    assert StillFits(s, who);
    AddressIsClipped(s, who, s.open[who].automation);
    ClippedIsShort(s.open[who].automation);
    EmptyIsClipped();
  }

  lemma EmptyIsClipped()
    ensures Clipped([]) == []
  {
  }

  /** What a policy allows, of what an automation has used on a day and in its month. */
  predicate Allows(policy: Policy, rows: seq<Reservation>, user: string, automation: string, at: Stamp) {
    && Usage(rows, user, automation, OnDay(at)) <= policy.daily
    && Usage(rows, user, automation, InMonth(at.month)) <= policy.monthly
  }

  lemma CommittedRowsFit(s: Db, who: string, policy: Policy, user: string, automation: string, at: Stamp)
    requires Sound(s) && who in s.open && Allows(policy, s.reservations, user, automation, at)
    requires user == who && automation == s.open[who].automation ==> policy == PolicyOf(s.policies, who, s.open[who])
    ensures Allows(policy, s.reservations + Rows(s.open[who]), user, automation, at)
  {
    hide Usage, Sound, PolicyOf;
    var a := s.open[who];
    if a.insertion == NotYet {
      assert s.reservations + [] == s.reservations;
    } else {
      FlushedIsOwn(s, who);
      if user != who || automation != a.automation {
        OtherRow(s, a.insertion.reservation, user, automation, at);
      } else {
        AdmittedRowFits(s, who, at);
      }
    }
  }

  lemma CommittingKeepsCaps(s: Db, who: string, user: string, automation: string, at: Stamp)
    requires Sound(s) && Capped(s, user, automation, at)
    ensures Capped(Committing(s, who), user, automation, at)
  {
    hide Usage, Sound, Clash, DefaultPolicy, PolicyOf, Getting, Address;
    if who in s.open && !Clash(s, who) {
      var t, key := Committing(s, who), (user, Clipped(automation));
      CommittingKeeps(s, who);
      AddressIsClipped(s, user, automation);
      AddressIsClipped(t, user, automation);
      CommittedPolicy(s, who, user, automation);
      if key in t.policies {
        if key !in s.policies {
          NewPolicyIsUnused(s, user, automation, at);
          DefaultLimits(s.open[who].plan);
        }
        CommittedRowsFit(s, who, t.policies[key], user, automation, at);
      }
    } else {
      ClosingKeepsCaps(s, who, user, automation, at);
    }
  }

  lemma ClippedIsShort(automation: string)
    requires automation != []
    ensures Clipped(automation) != [] && |Clipped(automation)| <= 120
  {
  }

  lemma DefaultLimits(plan: string)
    ensures DefaultPolicy(plan).daily >= 0 && DefaultPolicy(plan).monthly >= 0
  {
  }

  lemma ReservingKeepsCaps(s: Db, who: string, key: string, credits: int, user: string, automation: string, at: Stamp)
    requires Sound(s) && Capped(s, user, automation, at)
    ensures Capped(Reserving(s, who, key, credits), user, automation, at)
  {
    hide Usage, Address, KeyTaken, Sound;
    var t := Reserving(s, who, key, credits);
    if t != s && Address(s.policies, user, automation) in s.policies {
      NamedPolicies(s, user, automation);
      OtherRow(s, t.reservations[|s.reservations|], user, automation, at);
    }
  }

  /** Moments of one day share its usage. */
  lemma SameDayUsage(s: Db, user: string, automation: string, a: Stamp, b: Stamp)
    requires Sound(s) && SameDay(a, b)
    ensures Usage(s.reservations, user, automation, OnDay(a)) == Usage(s.reservations, user, automation, OnDay(b))
  {
    hide Total, Sound;
    AmountsAreNonNegative(s);
    WiderCountsMore(Charges(s.reservations), user, automation, OnDay(a), OnDay(b));
    WiderCountsMore(Charges(s.reservations), user, automation, OnDay(b), OnDay(a));
  }

  /** Finishing a row for no more than is left. */
  lemma FinishingKeepsCaps(s: Db, row: nat, r: Reservation, user: string, automation: string, at: Stamp)
    requires Sound(s) && row < |s.reservations| && s.reservations[row].status == Reserved
    requires r == s.reservations[row].(status := r.status, settlement := r.settlement)
    requires r.user == user && r.automation == automation && Address(s.policies, user, automation) in s.policies ==>
               var policy := s.policies[Address(s.policies, user, automation)];
               var excess := Amount(r) - s.reservations[row].reserved;
               && excess <= policy.daily - Usage(s.reservations, user, automation, OnDay(r.created))
               && excess <= policy.monthly - Usage(s.reservations, user, automation, InMonth(r.created.month))
    requires Capped(s, user, automation, at)
    ensures Capped(s.(reservations := s.reservations[row := r]), user, automation, at)
  {
    hide Usage, Address;
    assert SoundRow(s, s.reservations[row]);
    if SameDay(at, r.created) {
      SameDayUsage(s, user, automation, at, r.created);
    }
    hide Sound;
    UsageUpdate(s.reservations, row, r, user, automation, OnDay(at));
    UsageUpdate(s.reservations, row, r, user, automation, InMonth(at.month));
  }

  lemma PausingKeepsCaps(s: Db, who: string, plan: string, name: string, reason: string,
                         user: string, automation: string, at: Stamp)
    requires Sound(s) && Capped(s, user, automation, at)
    ensures Capped(Pausing(s, who, plan, name, reason), user, automation, at)
  {
    hide Usage, Sound, Address, DefaultPolicy;
    var t, key := Pausing(s, who, plan, name, reason), (user, Clipped(automation));
    PausingKeeps(s, who, plan, name, reason);
    AddressIsClipped(s, user, automation);
    AddressIsClipped(t, user, automation);
    PausedPolicy(s, who, plan, name, reason, key);
    if key in t.policies && key !in s.policies {
      EmptyIsClipped();
      NamedPolicies(t, user, automation);
      NewPolicyIsUnused(s, user, automation, at);
      DefaultLimits(plan);
    }
  }

  /** A pause keeps the limits of every policy, and creates one with the plan's. */
  lemma PausedPolicy(s: Db, who: string, plan: string, name: string, reason: string, key: (string, string))
    ensures var t := Pausing(s, who, plan, name, reason);
            && t.reservations == s.reservations
            && (key in s.policies ==> key in t.policies && t.policies[key].daily == s.policies[key].daily
                                      && t.policies[key].monthly == s.policies[key].monthly)
            && (key in t.policies && key !in s.policies ==>
                  && t.policies[key].daily == DefaultPolicy(plan).daily
                  && t.policies[key].monthly == DefaultPolicy(plan).monthly)
  {
    hide DefaultPolicy, Clipped;
  }

  lemma SettlingKeepsCaps(s: Db, action: Action, user: string, automation: string, at: Stamp)
    requires Sound(s) && action.Settle? && FitsBudget(s, action, user, automation)
    requires Capped(s, user, automation, at)
    ensures Capped(Settling(s, action.row, action.actual, action.enforced, action.balance), user, automation, at)
  {
    hide Sound, Usage, SettledRow, Amount, Charged;
    if Settling(s, action.row, action.actual, action.enforced, action.balance) != s {
      var r := s.reservations[action.row];
      var settled := SettledRow(r, action.actual, action.enforced, action.balance);
      SettledRowIsTheRow(r, action.actual, action.enforced, action.balance);
      FinishingKeepsCaps(s, action.row, settled, user, automation, at);
    }
  }

  lemma RefundingKeepsCaps(s: Db, row: nat, user: string, automation: string, at: Stamp)
    requires Sound(s) && (forall moment :: Capped(s, user, automation, moment))
    ensures Capped(Refunding(s, row), user, automation, at)
  {
    hide Sound, Usage, Amount;
    if Refunding(s, row) != s {
      EveryRowIsSound(s, row);
      RefundIsFree(s.reservations[row]);
      assert Capped(s, user, automation, s.reservations[row].created);
      FinishingKeepsCaps(s, row, RefundedRow(s.reservations[row]), user, automation, at);
    }
  }

  lemma StepKeepsCaps(s: Db, event: Event, user: string, automation: string, at: Stamp)
    requires Sound(s) && (forall moment :: Capped(s, user, automation, moment))
    requires FitsBudget(s, event.action, user, automation)
    ensures Capped(Step(s, event), user, automation, at)
  {
    hide Sound, Usage, Check, Inserting, Committing, Reserving, Refunding, Settling, Pausing;
    TickKeeps(s, event.now);
    var t := Ticked(s, event.now);
    forall moment
      ensures Capped(t, user, automation, moment)
    {
      assert Capped(s, user, automation, moment);
    }
    assert Capped(t, user, automation, at);
    match event.action
    case CheckFor(who, admission) => CheckingChangesNoRow(t, who, admission);
    case Insert(who, enforced) => InsertingChangesNoRow(t, who, enforced);
    case Commit(who) => CommittingKeepsCaps(t, who, user, automation, at);
    case Rollback(who) =>
    case Plain(who, key, credits) => ReservingKeepsCaps(t, who, key, credits, user, automation, at);
    case Settle(row, actual, enforced, balance) =>
      ClockDoesNotMatter(s, event, user, automation);
      SettlingKeepsCaps(t, event.action, user, automation, at);
    case Refund(row) => RefundingKeepsCaps(t, row, user, automation, at);
    case Pause(who, plan, name, reason) => PausingKeepsCaps(t, who, plan, name, reason, user, automation, at);
  }

  lemma CheckingChangesNoRow(s: Db, user: string, a: Admission)
    ensures Checking(s, user, a).reservations == s.reservations && Checking(s, user, a).policies == s.policies
  {
    hide Check;
  }

  lemma InsertingChangesNoRow(s: Db, user: string, enforced: bool)
    ensures Inserting(s, user, enforced).reservations == s.reservations
    ensures Inserting(s, user, enforced).policies == s.policies
  {
  }

  lemma ClockDoesNotMatter(s: Db, event: Event, user: string, automation: string)
    requires FitsBudget(s, event.action, user, automation)
    ensures FitsBudget(Ticked(s, event.now), event.action, user, automation)
  {
    hide Usage, SettledRow, Charged;
  }

  lemma SettledRowIsTheRow(r: Reservation, actual: int, enforced: bool, balance: int)
    ensures var t := SettledRow(r, actual, enforced, balance);
            && t == r.(status := t.status, settlement := t.settlement)
            && Amount(t) == Charged(r, actual, enforced, balance)
  {
  }

  lemma RefundIsFree(r: Reservation)
    ensures Amount(RefundedRow(r)) == 0
  {
  }

  /** The limits of an automation hold on every day and in every month. */
  ghost predicate WithinLimits(s: Db, user: string, automation: string) {
    forall at: Stamp :: Capped(s, user, automation, at)
  }

  lemma NothingCappedAtStart(start: Stamp, user: string, automation: string)
    ensures WithinLimits(Db(start, map[], [], map[]), user, automation)
  {
  }

  /** In every state a run reaches whose settlements fit what is left of the budget, the counted
      usage of an automation is within its daily and monthly limits. */
  lemma {:induction false} LimitsHold(start: Stamp, events: seq<Event>, user: string, automation: string)
    requires EverySettlementFits(start, events, user, automation)
    ensures WithinLimits(Run(start, events), user, automation)
  {
    hide Sound, Capped, Step, FitsBudget;
    if events == [] {
      NothingCappedAtStart(start, user, automation);
    } else {
      var n := |events| - 1;
      var init := events[..n];
      forall i | 0 <= i < n
        ensures FitsBudget(Run(start, init[..i]), init[i].action, user, automation)
      {
        assert init[..i] == events[..i];
      }
      LimitsHold(start, init, user, automation);
      RunIsSound(start, init);
      forall at: Stamp
        ensures Capped(Run(start, events), user, automation, at)
      {
        StepKeepsCaps(Run(start, init), events[n], user, automation, at);
      }
    }
  }

  /** The settlement, if it is one, charges no more than was reserved. */
  predicate Fair(s: Db, action: Action) {
    action.Settle? && Settling(s, action.row, action.actual, action.enforced, action.balance) != s ==>
      Charged(s.reservations[action.row], action.actual, action.enforced, action.balance)
        <= s.reservations[action.row].reserved
  }

  lemma FairFits(s: Db, action: Action, user: string, automation: string)
    requires WithinLimits(s, user, automation) && Fair(s, action)
    ensures FitsBudget(s, action, user, automation)
  {
    hide Usage, Settling, Charged;
    if action.Settle? && Settling(s, action.row, action.actual, action.enforced, action.balance) != s {
      SettledRowExists(s, action);
      assert Capped(s, user, automation, s.reservations[action.row].created);
    }
  }

  lemma SettledRowExists(s: Db, action: Action)
    requires action.Settle? && Settling(s, action.row, action.actual, action.enforced, action.balance) != s
    ensures action.row < |s.reservations|
  {
  }

  /** In particular the limits hold over every run whose settlements never exceed reservations. */
  lemma {:induction false} FairRunsStayWithinLimits(start: Stamp, events: seq<Event>, user: string, automation: string)
    requires forall i :: 0 <= i < |events| ==> Fair(Run(start, events[..i]), events[i].action)
    ensures EverySettlementFits(start, events, user, automation) && WithinLimits(Run(start, events), user, automation)
  {
    hide Fair, FitsBudget, Step, WithinLimits;
    if events != [] {
      var n := |events| - 1;
      var init := events[..n];
      forall i | 0 <= i < n
        ensures Fair(Run(start, init[..i]), init[i].action)
      {
        assert init[..i] == events[..i];
      }
      FairRunsStayWithinLimits(start, init, user, automation);
      FairFits(Run(start, init), events[n].action, user, automation);
      forall i | 0 <= i < |events|
        ensures FitsBudget(Run(start, events[..i]), events[i].action, user, automation)
      {
        if i < n {
          assert init[..i] == events[..i] && init[i] == events[i];
        }
      }
    }
    LimitsHold(start, events, user, automation);
  }

  // --------------------------------------------------------------------------- overruns

  /** How a settlement moves usage: by what it charges beyond the reservation. */
  lemma SettlementMovesUsage(s: Db, row: nat, actual: int, enforced: bool, balance: int, window: Window)
    requires Sound(s) && row < |s.reservations| && s.reservations[row].status == Reserved
    requires Settling(s, row, actual, enforced, balance) != s
    requires Within(window, s.reservations[row].created)
    ensures var r := s.reservations[row];
            Usage(Settling(s, row, actual, enforced, balance).reservations, r.user, r.automation, window) ==
              Usage(s.reservations, r.user, r.automation, window)
              + Amount(SettledRow(r, actual, enforced, balance)) - r.reserved
  {
    hide Usage, StillFits, SoundPolicies, Within;
    var r := s.reservations[row];
    assert SoundRow(s, r);
    SettledRowIsTheRow(r, actual, enforced, balance);
    UsageUpdate(s.reservations, row, SettledRow(r, actual, enforced, balance), r.user, r.automation, window);
  }

  /** A settlement leaves its day and month within the limits exactly when the charge beyond the
      reservation fits what is left of both: an overrun the account can pay is not held to the
      budget. */
  lemma SettlementWithinLimitIff(s: Db, row: nat, actual: int, enforced: bool, balance: int)
    requires Sound(s) && row < |s.reservations| && s.reservations[row].status == Reserved
    requires Settling(s, row, actual, enforced, balance) != s
    requires var r := s.reservations[row]; Address(s.policies, r.user, r.automation) in s.policies
    ensures var r, t := s.reservations[row], Settling(s, row, actual, enforced, balance);
            var policy := s.policies[Address(s.policies, r.user, r.automation)];
            var excess := Charged(r, actual, enforced, balance) - r.reserved;
            Capped(t, r.user, r.automation, r.created) <==>
            && excess <= policy.daily - Usage(s.reservations, r.user, r.automation, OnDay(r.created))
            && excess <= policy.monthly - Usage(s.reservations, r.user, r.automation, InMonth(r.created.month))
  {
    hide Usage, Sound, Charged, SettledRow;
    var r := s.reservations[row];
    SettledRowIsTheRow(r, actual, enforced, balance);
    SettlementMovesUsage(s, row, actual, enforced, balance, OnDay(r.created));
    SettlementMovesUsage(s, row, actual, enforced, balance, InMonth(r.created.month));
  }

  /** So every limit of the automation survives a settlement exactly when it fits the budget. */
  lemma LimitsSurviveIff(s: Db, row: nat, actual: int, enforced: bool, balance: int)
    requires Sound(s) && row < |s.reservations| && s.reservations[row].status == Reserved
    requires Settling(s, row, actual, enforced, balance) != s
    requires WithinLimits(s, s.reservations[row].user, s.reservations[row].automation)
    ensures var r := s.reservations[row];
            WithinLimits(Settling(s, row, actual, enforced, balance), r.user, r.automation) <==>
            FitsBudget(s, Settle(row, actual, enforced, balance), r.user, r.automation)
  {
    hide Usage, Sound, SettledRow, Charged;
    var r, action := s.reservations[row], Settle(row, actual, enforced, balance);
    var t := Settling(s, row, actual, enforced, balance);
    if FitsBudget(s, action, r.user, r.automation) {
      forall at: Stamp
        ensures Capped(t, r.user, r.automation, at)
      {
        assert Capped(s, r.user, r.automation, at);
        SettlingKeepsCaps(s, action, r.user, r.automation, at);
      }
    } else {
      SettlementWithinLimitIff(s, row, actual, enforced, balance);
      assert !Capped(t, r.user, r.automation, r.created);
    }
  }

  /** The limits of an automation hold at every point of a run exactly when every settlement of it
      fits its budget when it is made. */
  lemma {:induction false} LimitsHoldIff(start: Stamp, events: seq<Event>, user: string, automation: string)
    ensures (forall i :: 0 <= i <= |events| ==> WithinLimits(Run(start, events[..i]), user, automation))
       <==> EverySettlementFits(start, events, user, automation)
  {
    hide Sound, WithinLimits, FitsBudget, Step;
    if EverySettlementFits(start, events, user, automation) {
      forall i | 0 <= i <= |events|
        ensures WithinLimits(Run(start, events[..i]), user, automation)
      {
        forall j | 0 <= j < i
          ensures FitsBudget(Run(start, events[..i][..j]), events[..i][j].action, user, automation)
        {
          assert events[..i][..j] == events[..j];
        }
        LimitsHold(start, events[..i], user, automation);
      }
    }
    if forall i :: 0 <= i <= |events| ==> WithinLimits(Run(start, events[..i]), user, automation) {
      forall i | 0 <= i < |events|
        ensures FitsBudget(Run(start, events[..i]), events[i].action, user, automation)
      {
        assert events[..i + 1][..i] == events[..i];
        assert WithinLimits(Run(start, events[..i + 1]), user, automation);
        RunIsSound(start, events[..i]);
        UnfitBreaksLimits(Run(start, events[..i]), events[i], user, automation);
      }
    }
  }

  lemma UnfitBreaksLimits(s: Db, event: Event, user: string, automation: string)
    requires Sound(s) && WithinLimits(s, user, automation) && WithinLimits(Step(s, event), user, automation)
    ensures FitsBudget(s, event.action, user, automation)
  {
    hide Sound, Usage, SettledRow, Charged;
    var t := Ticked(s, event.now);
    if !FitsBudget(s, event.action, user, automation) {
      var action := event.action;
      TickKeeps(s, event.now);
      assert Settling(t, action.row, action.actual, action.enforced, action.balance) != t;
      assert Capped(Step(s, event), user, automation, s.reservations[action.row].created);
      SettlementWithinLimitIff(t, action.row, action.actual, action.enforced, action.balance);
      assert false;
    }
  }

  /** Nothing reserved is nothing counted: with usage not enforced, a commit leaves every usage as it
      was. */
  lemma UnenforcedCountsNothing(s: Db, who: string, user: string, automation: string, window: Window)
    requires who in s.open && s.open[who].insertion == NotYet
    ensures Usage(Committing(Inserting(s, who, false), who).reservations, user, automation, window)
         == Usage(s.reservations, user, automation, window)
  {
    hide Usage, Getting;
    var t := Inserting(s, who, false);
    if t == s {
      assert s.reservations + [] == s.reservations;
    } else {
      UsageSnoc(s.reservations, t.open[who].insertion.reservation, user, automation, window);
    }
  }

  // ----------------------------------------------------------------------------- pauses

  predicate IsPaused(s: Db, user: string, automation: string) {
    var address := Address(s.policies, user, automation);
    address in s.policies && s.policies[address].paused
  }

  /** A paused automation has no check passed and not yet committed. */
  lemma PausedIsNotOpen(s: Db, user: string, automation: string)
    requires Sound(s) && IsPaused(s, user, automation) && user in s.open
    ensures s.open[user].automation != automation
  {
    hide Usage, SoundPolicies, SoundRow;
    assert StillFits(s, user);
  }

  /** Reservations of one automation. */
  function Runs(rows: seq<Reservation>, user: string, automation: string): nat {
    if rows == [] then 0
    else
      var last := rows[|rows| - 1];
      Runs(rows[..|rows| - 1], user, automation) + if last.user == user && last.automation == automation then 1 else 0
  }

  lemma RunsSnoc(rows: seq<Reservation>, r: Reservation, user: string, automation: string)
    ensures Runs(rows + [r], user, automation) ==
              Runs(rows, user, automation) + if r.user == user && r.automation == automation then 1 else 0
  {
    assert (rows + [r])[..|rows|] == rows;
  }

  lemma {:induction false} RunsUpdate(rows: seq<Reservation>, i: nat, r: Reservation, user: string, automation: string)
    requires i < |rows| && r.user == rows[i].user && r.automation == rows[i].automation
    ensures Runs(rows[i := r], user, automation) == Runs(rows, user, automation)
  {
    if i == |rows| - 1 {
      assert rows[i := r][..|rows| - 1] == rows[..|rows| - 1];
    } else {
      assert rows[i := r][..|rows| - 1] == rows[..|rows| - 1][i := r];
      RunsUpdate(rows[..|rows| - 1], i, r, user, automation);
    }
  }

  lemma CommitKeepsPause(s: Db, who: string, user: string, automation: string)
    requires Sound(s) && IsPaused(s, user, automation)
    ensures IsPaused(Committing(s, who), user, automation)
    ensures Runs(Committing(s, who).reservations, user, automation) == Runs(s.reservations, user, automation)
  {
    hide Sound, Runs, DefaultPolicy, Clipped, Clash, Address, Getting, PolicyOf;
    CommittingKeeps(s, who);
    AddressIsClipped(s, user, automation);
    AddressIsClipped(Committing(s, who), user, automation);
    if who in s.open && !Clash(s, who) {
      CommittedPolicy(s, who, user, automation);
      if user == who {
        PausedIsNotOpen(s, user, automation);
      }
      if s.open[who].insertion.Flushed? {
        FlushedIsOwn(s, who);
        RunsSnoc(s.reservations, s.open[who].insertion.reservation, user, automation);
      } else {
        assert s.reservations + [] == s.reservations;
      }
    }
  }

  lemma SettlingKeepsRuns(s: Db, row: nat, actual: int, enforced: bool, balance: int,
                          user: string, automation: string)
    ensures Runs(Settling(s, row, actual, enforced, balance).reservations, user, automation)
         == Runs(s.reservations, user, automation)
    ensures Settling(s, row, actual, enforced, balance).policies == s.policies
  {
    hide Runs, SettledRow;
    if Settling(s, row, actual, enforced, balance) != s {
      SettledRowIsTheRow(s.reservations[row], actual, enforced, balance);
      RunsUpdate(s.reservations, row, SettledRow(s.reservations[row], actual, enforced, balance), user, automation);
    }
  }

  lemma RefundingKeepsRuns(s: Db, row: nat, user: string, automation: string)
    ensures Runs(Refunding(s, row).reservations, user, automation) == Runs(s.reservations, user, automation)
    ensures Refunding(s, row).policies == s.policies
  {
    hide Runs;
    if Refunding(s, row) != s {
      RunsUpdate(s.reservations, row, RefundedRow(s.reservations[row]), user, automation);
    }
  }

  lemma ReservingKeepsRuns(s: Db, who: string, key: string, credits: int, user: string, automation: string)
    requires automation != []
    ensures Runs(Reserving(s, who, key, credits).reservations, user, automation)
         == Runs(s.reservations, user, automation)
    ensures Reserving(s, who, key, credits).policies == s.policies
  {
    hide Runs;
    if Reserving(s, who, key, credits) != s {
      RunsSnoc(s.reservations, Reserving(s, who, key, credits).reservations[|s.reservations|], user, automation);
    }
  }

  lemma PausingKeepsPause(s: Db, who: string, plan: string, name: string, reason: string,
                          user: string, automation: string)
    requires IsPaused(s, user, automation)
    ensures IsPaused(Pausing(s, who, plan, name, reason), user, automation)
    ensures Pausing(s, who, plan, name, reason).reservations == s.reservations
  {
    hide DefaultPolicy, Clipped;
  }

  lemma ActKeepsPause(s: Db, action: Action, user: string, automation: string)
    requires Sound(s) && IsPaused(s, user, automation)
    ensures IsPaused(Act(s, action), user, automation)
    ensures Runs(Act(s, action).reservations, user, automation) == Runs(s.reservations, user, automation)
  {
    NamedPolicies(s, user, automation);
    hide Sound, Checking, Runs, Address, Committing, Reserving, Inserting, Settling, Refunding, Pausing;
    match action
    case CheckFor(who, admission) => CheckingChangesNoRow(s, who, admission);
    case Insert(who, enforced) => InsertingChangesNoRow(s, who, enforced);
    case Commit(who) => CommitKeepsPause(s, who, user, automation);
    case Rollback(who) =>
    case Plain(who, key, credits) => ReservingKeepsRuns(s, who, key, credits, user, automation);
    case Settle(row, actual, enforced, balance) =>
      SettlingKeepsRuns(s, row, actual, enforced, balance, user, automation);
    case Refund(row) => RefundingKeepsRuns(s, row, user, automation);
    case Pause(who, plan, name, reason) => PausingKeepsPause(s, who, plan, name, reason, user, automation);
  }

  lemma StepKeepsPause(s: Db, event: Event, user: string, automation: string)
    requires Sound(s) && IsPaused(s, user, automation)
    ensures IsPaused(Step(s, event), user, automation)
    ensures Runs(Step(s, event).reservations, user, automation) == Runs(s.reservations, user, automation)
  {
    hide Sound, Act, Runs, Upto;
    TickKeeps(s, event.now);
    ActKeepsPause(Ticked(s, event.now), event.action, user, automation);
  }

  /** Every policy has a name, and so has every automation that finds one. */
  lemma NamedPolicies(s: Db, user: string, automation: string)
    requires Sound(s) && Address(s.policies, user, automation) in s.policies
    ensures automation != []
  {
    hide StillFits, SoundRow;
  }

  lemma PausedRejects(s: Db, user: string, automation: string)
    requires Sound(s) && IsPaused(s, user, automation)
    ensures forall plan, credits, now ::
              var verdict := Check(s.policies, s.reservations, user, plan, automation, credits, now);
              if |automation| <= 120 then verdict.Exceeded? else verdict == UniqueViolation
  {
    hide StillFits, SoundRow, Usage, DefaultPolicy;
  }

  /** A persisted pause is final for these functions: from then on every check of that automation
      rejects, a key over 120 characters for want of a policy, and it gets no further reservation. */
  lemma {:induction false} PauseIsSticky(start: Stamp, events: seq<Event>, k: nat, user: string, automation: string)
    requires k <= |events| && IsPaused(Run(start, events[..k]), user, automation)
    ensures var s := Run(start, events);
            && IsPaused(s, user, automation)
            && Runs(s.reservations, user, automation) == Runs(Run(start, events[..k]).reservations, user, automation)
            && forall plan, credits, now ::
                 var verdict := Check(s.policies, s.reservations, user, plan, automation, credits, now);
                 if |automation| <= 120 then verdict.Exceeded? else verdict == UniqueViolation
    decreases |events|
  {
    hide Step, Runs, Sound, Usage, IsPaused, Check;
    if k < |events| {
      var init := events[..|events| - 1];
      assert init[..k] == events[..k];
      PauseIsSticky(start, init, k, user, automation);
      RunIsSound(start, init);
      StepKeepsPause(Run(start, init), events[|events| - 1], user, automation);
    } else {
      assert events[..k] == events;
    }
    RunIsSound(start, events);
    PausedRejects(Run(start, events), user, automation);
  }

  // ------------------------------------------------------------------- idempotency keys

  predicate KeysAreUnique(rows: seq<Reservation>) {
    forall i, j :: 0 <= i < j < |rows| ==> rows[i].key != rows[j].key
  }

  lemma NewKeyStaysUnique(rows: seq<Reservation>, r: Reservation)
    requires KeysAreUnique(rows) && !KeyTaken(rows, r.key)
    ensures KeysAreUnique(rows + [r])
  {
    forall i | 0 <= i < |rows|
      ensures rows[i].key != r.key
    {
      assert rows[i] in rows;
    }
  }

  lemma CommittingKeepsKeys(s: Db, user: string)
    requires KeysAreUnique(s.reservations)
    ensures KeysAreUnique(Committing(s, user).reservations)
  {
    hide KeysAreUnique, KeyTaken, Getting;
    if user in s.open && !Clash(s, user) {
      if s.open[user].insertion.Flushed? {
        var r := s.open[user].insertion.reservation;
        assert r in Rows(s.open[user]);
        NewKeyStaysUnique(s.reservations, r);
      } else {
        assert s.reservations + [] == s.reservations;
      }
    }
  }

  lemma ReservingKeepsKeys(s: Db, user: string, key: string, credits: int)
    requires KeysAreUnique(s.reservations)
    ensures KeysAreUnique(Reserving(s, user, key, credits).reservations)
  {
    hide KeysAreUnique, KeyTaken;
    if Reserving(s, user, key, credits) != s {
      NewKeyStaysUnique(s.reservations, Reservation(user, "", key, Reserved, credits, Open, s.clock));
    }
  }

  lemma FinishingKeepsKeys(s: Db, row: nat, actual: int, enforced: bool, balance: int)
    requires KeysAreUnique(s.reservations)
    ensures KeysAreUnique(Settling(s, row, actual, enforced, balance).reservations)
    ensures KeysAreUnique(Refunding(s, row).reservations)
  {
    hide SettledRow;
    if row < |s.reservations| {
      SettledRowIsTheRow(s.reservations[row], actual, enforced, balance);
    }
  }

  /** In every reachable state an idempotency key has at most one reservation. */
  lemma {:induction false} OneReservationPerKey(start: Stamp, events: seq<Event>)
    ensures KeysAreUnique(Run(start, events).reservations)
  {
    hide KeysAreUnique, Committing, Reserving, Settling, Refunding, Checking, Inserting, Pausing, Upto;
    if events == [] {
      NoKeysAtStart();
    } else {
      OneReservationPerKey(start, events[..|events| - 1]);
      var s, event := Run(start, events[..|events| - 1]), events[|events| - 1];
      var t := Ticked(s, event.now);
      match event.action
      case CheckFor(who, admission) => CheckingChangesNoRow(t, who, admission);
      case Insert(who, enforced) => InsertingChangesNoRow(t, who, enforced);
      case Commit(who) => CommittingKeepsKeys(t, who);
      case Rollback(who) =>
      case Plain(who, key, credits) => ReservingKeepsKeys(t, who, key, credits);
      case Settle(row, actual, enforced, balance) => FinishingKeepsKeys(t, row, actual, enforced, balance);
      case Refund(row) => FinishingKeepsKeys(t, row, 0, false, 0);
      case Pause(who, plan, name, reason) => PausedPolicy(t, who, plan, name, reason, (who, name));
    }
  }

  lemma NoKeysAtStart()
    ensures KeysAreUnique([])
  {
  }

  // -------------------------------------------------------------------------- long keys

  /** After a policy has been got or created, the next look-up under the same key works exactly
      when the key fits its column: a longer key meets the unique constraint instead. */
  lemma SecondLookupWorksIff(s: Db, user: string, plan: string, automation: string)
    requires Sound(s) && CanGet(s.policies, user, automation)
    ensures CanGet(Getting(s.policies, user, plan, automation), user, automation) <==> |automation| <= 120
  {
    hide StillFits, SoundRow;
  }
}
