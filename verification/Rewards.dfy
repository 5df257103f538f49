/** Granting reward credits under caps (rewards.py). */
module Rewards {

  import opened CreditWindows

  datatype Cap = Cap(daily: int, monthly: int, lifetime: int)

  datatype Request = Request(user: string, kind: string, credits: int, key: string, grantedBy: string)

  /** A ledger entry for a grant. */
  datatype Entry = Entry(user: string, action: string, delta: int, key: string)

  datatype Refusal = UnsupportedType | NotPositive | NoAdministrator | CapExceeded

  datatype Decision = Existing | Refused(why: Refusal) | Admit

  const REWARD_CAPS := map[
    "welcome_grant" := Cap(1_000, 1_000, 1_000),
    "onboarding_portfolio_grant" := Cap(200, 200, 200),
    "daily_brief_feedback_grant" := Cap(20, 100, 300),
    "streak_grant" := Cap(50, 100, 500),
    "referral_grant" := Cap(200, 400, 1_000),
    "bug_bounty_grant" := Cap(1_000, 2_000, 5_000),
    "manual_admin_grant" := Cap(5_000, 10_000, 30_000)
  ]

  predicate HasKey(rows: seq<Charge>, key: string) { exists row :: row in rows && row.key == key }

  predicate FitsCaps(rows: seq<Charge>, request: Request, now: Stamp)
    requires request.kind in REWARD_CAPS
  {
    var cap := REWARD_CAPS[request.kind];
    && Total(rows, request.user, request.kind, SinceDay(now)) + request.credits <= cap.daily
    && Total(rows, request.user, request.kind, SinceMonth(now.month)) + request.credits <= cap.monthly
    && Total(rows, request.user, request.kind, Ever) + request.credits <= cap.lifetime
  }

  /** What grant_reward decides on the rows its transaction sees. */
  function Decide(rows: seq<Charge>, request: Request, now: Stamp): Decision {
    if request.kind !in REWARD_CAPS then Refused(UnsupportedType)
    else if request.credits <= 0 then Refused(NotPositive)
    else if HasKey(rows, request.key) then Existing
    else if request.kind == "manual_admin_grant" && request.grantedBy == [] then Refused(NoAdministrator)
    else if !FitsCaps(rows, request, now) then Refused(CapExceeded)
    else Admit
  }

  function GrantOf(request: Request, created: Stamp): Charge {
    Charge(request.user, request.kind, request.credits, request.key, created)
  }

  function EntryOf(row: Charge): Entry {
    Entry(row.user, row.kind, row.credits, "reward:" + row.key)
  }

  class RewardTable {
    var grants: seq<Charge>
    var ledger: seq<Entry>

    constructor ()
      ensures grants == [] && ledger == []
    {
      grants, ledger := [], [];
    }

    /** The three sums over the rows of one user and type. */
    method Sums(user: string, kind: string, now: Stamp) returns (daily: int, monthly: int, lifetime: int)
      ensures daily == Total(grants, user, kind, SinceDay(now))
      ensures monthly == Total(grants, user, kind, SinceMonth(now.month))
      ensures lifetime == Total(grants, user, kind, Ever)
    {
      daily, monthly, lifetime := 0, 0, 0;
      for index := 0 to |grants|
        invariant daily == Total(grants[..index], user, kind, SinceDay(now))
        invariant monthly == Total(grants[..index], user, kind, SinceMonth(now.month))
        invariant lifetime == Total(grants[..index], user, kind, Ever)
      {
        assert grants[..index + 1][..index] == grants[..index];
        var row := grants[index];
        if row.user == user && row.kind == kind {
          if DayReached(now, row.created) {
            daily := daily + row.credits;
          }
          if row.created.month >= now.month {
            monthly := monthly + row.credits;
          }
          lifetime := lifetime + row.credits;
        }
      }
      assert grants[..|grants|] == grants;
    }

    /** grant_reward with nobody else in the table: one grant and its ledger entry, or nothing. */
    method GrantReward(request: Request, now: Stamp, created: Stamp) returns (decision: Decision)
      modifies this
      ensures decision == old(Decide(grants, request, now))
      ensures decision == Admit ==>
                && grants == old(grants) + [GrantOf(request, created)]
                && ledger == old(ledger) + [EntryOf(GrantOf(request, created))]
      ensures decision != Admit ==> grants == old(grants) && ledger == old(ledger)
    {
      if request.kind !in REWARD_CAPS {
        return Refused(UnsupportedType);
      }
      if request.credits <= 0 {
        return Refused(NotPositive);
      }
      if exists row :: row in grants && row.key == request.key {
        return Existing;
      }
      if request.kind == "manual_admin_grant" && request.grantedBy == [] {
        return Refused(NoAdministrator);
      }
      var daily, monthly, lifetime := Sums(request.user, request.kind, now);
      var cap := REWARD_CAPS[request.kind];
      if daily + request.credits > cap.daily
         || monthly + request.credits > cap.monthly
         || lifetime + request.credits > cap.lifetime {
        return Refused(CapExceeded);
      }
      ledger := ledger + [Entry(request.user, request.kind, request.credits, "reward:" + request.key)];
      grants := grants + [Charge(request.user, request.kind, request.credits, request.key, created)];
      decision := Admit;
    }
  }
}
