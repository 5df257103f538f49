/** Automation budgets (budgets.py) and the reservations they count (credit_service.py). */
module Budgets {
  import opened CreditWindows

  datatype Policy = Policy(daily: int, monthly: int, perRun: int, enabled: bool, paused: bool, reason: string)

  datatype Status = Reserved | Settled | SettledCapped | Refunded

  datatype Settlement = Open | Final(credits: int)

  /** A reservation; the automation is empty for a task that is not automated. */
  datatype Reservation = Reservation(
    user: string,
    automation: string,
    key: string,
    status: Status,
    reserved: int,
    settlement: Settlement,
    created: Stamp)

  datatype Limits = Limits(daily: int, monthly: int, perRun: int)

  /** A policy is addressed by its user and automation key. */
  type Policies = map<(string, string), Policy>

  datatype Verdict = Admitted | Exceeded(reason: string) | UniqueViolation

  const PLAN_DEFAULTS := map[
    "Free" := Limits(20, 300, 20),
    "Invite Preview" := Limits(40, 600, 40),
    "Pro" := Limits(150, 1_500, 80),
    "Max" := Limits(500, 6_000, 150),
    "Enterprise" := Limits(2_000, 30_000, 500)
  ]

  function DefaultPolicy(plan: string): Policy {
    var limits := if plan in PLAN_DEFAULTS then PLAN_DEFAULTS[plan] else PLAN_DEFAULTS["Free"];
    Policy(limits.daily, limits.monthly, limits.perRun, true, false, "")
  }

  /** `text[:120]`. */
  function Clipped(text: string): string { if |text| <= 120 then text else text[..120] }

  /** What a reservation counts for: its settlement once there is one, nothing when refunded. */
  function Amount(r: Reservation): int {
    if r.status == Refunded then 0 else if r.settlement.Final? then r.settlement.credits else r.reserved
  }

  function ChargeOf(r: Reservation): Charge { Charge(r.user, r.automation, Amount(r), r.key, r.created) }

  function Charges(rows: seq<Reservation>): (charges: seq<Charge>)
    ensures |charges| == |rows| && forall i :: 0 <= i < |rows| ==> charges[i] == ChargeOf(rows[i])
  {
    seq(|rows|, i requires 0 <= i < |rows| => ChargeOf(rows[i]))
  }

  function Usage(rows: seq<Reservation>, user: string, automation: string, window: Window): int {
    Total(Charges(rows), user, automation, window)
  }

  /** get_or_create_policy: the look-up uses the whole key, the new row its first 120 characters,
      which the unique constraint may already hold. */
  predicate CanGet(policies: Policies, user: string, automation: string) {
    (user, automation) in policies || (user, Clipped(automation)) !in policies
  }

  function Getting(policies: Policies, user: string, plan: string, automation: string): Policies {
    if (user, automation) in policies then policies
    else policies[(user, Clipped(automation)) := DefaultPolicy(plan)]
  }

  function Address(policies: Policies, user: string, automation: string): (string, string) {
    if (user, automation) in policies then (user, automation) else (user, Clipped(automation))
  }

  function Judge(policy: Policy, daily: int, monthly: int, credits: int): Verdict {
    if !policy.enabled || policy.paused then
      Exceeded(if policy.reason != [] then policy.reason else "AUTOMATION_BUDGET_PAUSED")
    else if credits > policy.perRun then Exceeded("AUTOMATION_PER_RUN_LIMIT")
    else if daily + credits > policy.daily then Exceeded("AUTOMATION_DAILY_BUDGET")
    else if monthly + credits > policy.monthly then Exceeded("AUTOMATION_MONTHLY_BUDGET")
    else Admitted
  }

  /** The verdict of assert_automation_budget. */
  function Check(policies: Policies, rows: seq<Reservation>, user: string, plan: string, automation: string,
                 credits: int, now: Stamp): Verdict {
    if !CanGet(policies, user, automation) then UniqueViolation
    else
      var policy := if (user, automation) in policies then policies[(user, automation)] else DefaultPolicy(plan);
      Judge(policy, Usage(rows, user, automation, SinceDay(now)), Usage(rows, user, automation, SinceMonth(now.month)),
            credits)
  }

  function Paused(policies: Policies, address: (string, string), reason: string): Policies {
    if address !in policies then policies
    else policies[address := policies[address].(paused := true, reason := reason)]
  }

  function Requested(actual: int): nat { if actual > 0 then actual else 0 }

  /** settle_task: an overrun is charged in full unless the account cannot pay it. */
  function SettledRow(r: Reservation, actual: int, enforced: bool, balance: int): Reservation {
    var requested := Requested(actual);
    if requested > r.reserved && enforced && balance < requested - r.reserved
    then r.(status := SettledCapped, settlement := Final(r.reserved))
    else r.(status := Settled, settlement := Final(requested))
  }

  function RefundedRow(r: Reservation): Reservation { r.(status := Refunded, settlement := Final(0)) }

  class BudgetTable {
    var policies: Policies
    var reservations: seq<Reservation>

    constructor ()
      ensures policies == map[] && reservations == []
    {
      policies, reservations := map[], [];
    }

    method GetOrCreatePolicy(user: string, plan: string, automation: string)
      returns (found: bool, address: (string, string))
      modifies this`policies
      ensures found == old(CanGet(policies, user, automation))
      ensures address == old(Address(policies, user, automation))
      ensures policies == if found then old(Getting(policies, user, plan, automation)) else old(policies)
      ensures found ==> address in policies
    {
      if (user, automation) in policies {
        return true, (user, automation);
      }
      address := (user, Clipped(automation));
      found := address !in policies;
      if found {
        policies := policies[address := DefaultPolicy(plan)];
      }
    }

    method BudgetUsage(user: string, automation: string, now: Stamp) returns (daily: int, monthly: int)
      ensures daily == Usage(reservations, user, automation, SinceDay(now))
      ensures monthly == Usage(reservations, user, automation, SinceMonth(now.month))
    {
      daily, monthly := 0, 0;
      ghost var charges := Charges(reservations);
      for index := 0 to |reservations|
        invariant daily == Total(charges[..index], user, automation, SinceDay(now))
        invariant monthly == Total(charges[..index], user, automation, SinceMonth(now.month))
      {
        assert charges[..index + 1][..index] == charges[..index];
        var r := reservations[index];
        if r.user == user && r.automation == automation && r.created.month >= now.month && r.status != Refunded {
          var amount := if r.settlement.Final? then r.settlement.credits else r.reserved;
          monthly := monthly + amount;
          if DayReached(now, r.created) {
            daily := daily + amount;
          }
        }
      }
      assert charges[..|reservations|] == charges;
    }

    /** assert_automation_budget: a rejection pauses the policy. */
    method AssertAutomationBudget(user: string, plan: string, automation: string, credits: int, now: Stamp)
      returns (verdict: Verdict)
      modifies this`policies
      ensures verdict == old(Check(policies, reservations, user, plan, automation, credits, now))
      ensures verdict == UniqueViolation ==> policies == old(policies)
      ensures verdict == Admitted ==> policies == old(Getting(policies, user, plan, automation))
      ensures verdict.Exceeded? ==>
                policies == old(Paused(Getting(policies, user, plan, automation),
                                       Address(policies, user, automation), verdict.reason))
    {
      var found, address := GetOrCreatePolicy(user, plan, automation);
      if !found {
        return UniqueViolation;
      }
      var policy := policies[address];
      var daily, monthly := BudgetUsage(user, automation, now);
      var reason := "";
      if !policy.enabled || policy.paused {
        reason := if policy.reason != [] then policy.reason else "AUTOMATION_BUDGET_PAUSED";
      } else if credits > policy.perRun {
        reason := "AUTOMATION_PER_RUN_LIMIT";
      } else if daily + credits > policy.daily {
        reason := "AUTOMATION_DAILY_BUDGET";
      } else if monthly + credits > policy.monthly {
        reason := "AUTOMATION_MONTHLY_BUDGET";
      }
      if reason != [] {
        policies := policies[address := policy.(paused := true, reason := reason)];
        return Exceeded(reason);
      }
      verdict := Admitted;
    }

    /** pause_automation_budget. */
    method PauseAutomationBudget(user: string, plan: string, automation: string, reason: string) returns (done: bool)
      modifies this`policies
      ensures done == old(CanGet(policies, user, automation))
      ensures policies == if done
                          then old(Paused(Getting(policies, user, plan, automation),
                                          Address(policies, user, automation), Clipped(reason)))
                          else old(policies)
    {
      var address;
      done, address := GetOrCreatePolicy(user, plan, automation);
      if done {
        policies := policies[address := policies[address].(paused := true, reason := Clipped(reason))];
      }
    }

    /** settle_task on one reservation: terminal ones stay as they are. */
    method SettleTask(i: nat, actual: int, enforced: bool, balance: int) returns (settled: int)
      requires i < |reservations|
      modifies this`reservations
      ensures reservations ==
        if old(reservations[i]).status == Reserved
        then old(reservations)[i := SettledRow(old(reservations[i]), actual, enforced, balance)]
        else old(reservations)
      ensures old(reservations[i]).status == Reserved ==> settled == Amount(reservations[i])
    {
      var r := reservations[i];
      settled := 0;
      if r.status != Reserved {
        return;
      }
      settled := if actual > 0 then actual else 0;
      var adjustment := r.reserved - settled;
      var status := Settled;
      if adjustment < 0 && enforced && balance < -adjustment {
        settled := r.reserved;
        status := SettledCapped;
      }
      reservations := reservations[i := r.(status := status, settlement := Final(settled))];
    }

    /** refund_task on one reservation: a settled one cannot be refunded. */
    method RefundTask(i: nat) returns (refunded: bool)
      requires i < |reservations|
      modifies this`reservations
      ensures refunded <==> old(reservations[i]).status == Reserved || old(reservations[i]).status == Refunded
      ensures reservations ==
        if old(reservations[i]).status == Reserved
        then old(reservations)[i := RefundedRow(old(reservations[i]))]
        else old(reservations)
    {
      var r := reservations[i];
      if r.status == Refunded {
        return true;
      }
      if r.status != Reserved {
        return false;
      }
      reservations := reservations[i := r.(status := Refunded, settlement := Final(0))];
      refunded := true;
    }
  }
}
