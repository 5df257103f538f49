/** Reward caps under concurrency.  A transaction takes its user's row lock before it decides and
    keeps it until it commits or rolls back; it sees committed rows and its own.  Transactions of
    different users interleave freely, and the unique key is enforced when a transaction commits. */
module RewardLaws {
  import opened CreditWindows
  import opened Rewards

  datatype Choice = Nothing | Chosen(request: Request, at: Stamp)

  /** A user's open transaction: a request admitted but not yet inserted, and the rows inserted. */
  datatype Txn = Txn(chosen: Choice, pending: seq<Charge>)

  datatype Db = Db(clock: Stamp, grants: seq<Charge>, ledger: seq<Entry>, open: map<string, Txn>)

  datatype Action =
    | DecideFor(request: Request)
    | Insert(user: string)
    | Commit(user: string)
    | Rollback(user: string)

  /** An action at a moment; the clock never goes back. */
  datatype Event = Event(now: Stamp, action: Action)

  function Pending(s: Db, user: string): seq<Charge> {
    if user in s.open then s.open[user].pending else []
  }

  /** What a user's transaction sees. */
  function Visible(s: Db, user: string): seq<Charge> { s.grants + Pending(s, user) }

  /** Takes the lock if it is free, or keeps it, and decides. */
  function Deciding(s: Db, request: Request): Db {
    var user := request.user;
    if user in s.open && s.open[user].chosen.Chosen? then s
    else if Decide(Visible(s, user), request, s.clock) != Admit then s
    else s.(open := s.open[user := Txn(Chosen(request, s.clock), Pending(s, user))])
  }

  function Inserting(s: Db, user: string): Db {
    if user !in s.open || s.open[user].chosen == Nothing then s
    else
      var row := GrantOf(s.open[user].chosen.request, s.clock);
      s.(open := s.open[user := Txn(Nothing, s.open[user].pending + [row])])
  }

  function Entries(rows: seq<Charge>): (entries: seq<Entry>)
    ensures |entries| == |rows|
    ensures forall i :: 0 <= i < |rows| ==> entries[i] == EntryOf(rows[i])
  {
    seq(|rows|, i requires 0 <= i < |rows| => EntryOf(rows[i]))
  }

  predicate Clash(grants: seq<Charge>, rows: seq<Charge>) {
    exists row :: row in rows && HasKey(grants, row.key)
  }

  function Closed(s: Db, user: string): Db { s.(open := s.open - {user}) }

  /** All of the transaction, or nothing of it when another user has committed one of its keys. */
  function Committing(s: Db, user: string): Db {
    if user !in s.open then s
    else if Clash(s.grants, s.open[user].pending) then Closed(s, user)
    else
      Closed(s, user).(
        grants := s.grants + s.open[user].pending,
        ledger := s.ledger + Entries(s.open[user].pending))
  }

  function Act(s: Db, action: Action): Db {
    match action
    case DecideFor(request) => Deciding(s, request)
    case Insert(user) => Inserting(s, user)
    case Commit(user) => Committing(s, user)
    case Rollback(user) => Closed(s, user)
  }

  function Step(s: Db, event: Event): Db {
    Act(if Upto(s.clock, event.now) then s.(clock := event.now) else s, event.action)
  }

  function Run(start: Stamp, events: seq<Event>): Db {
    if events == [] then Db(start, [], [], map[])
    else Step(Run(start, events[..|events| - 1]), events[|events| - 1])
  }

  // ------------------------------------------------------------------------ invariants

  /** The three caps, for the day and the month of a given moment and over all time. */
  predicate WithinCaps(rows: seq<Charge>, user: string, kind: string, at: Stamp)
    requires kind in REWARD_CAPS
  {
    var cap := REWARD_CAPS[kind];
    && Total(rows, user, kind, OnDay(at)) <= cap.daily
    && Total(rows, user, kind, InMonth(at.month)) <= cap.monthly
    && Total(rows, user, kind, Ever) <= cap.lifetime
  }

  /** Rows a user's transaction sees are sound: known type, positive, not from the future. */
  predicate SoundRows(rows: seq<Charge>, clock: Stamp) {
    forall row :: row in rows ==> row.kind in REWARD_CAPS && row.credits > 0 && Upto(row.created, clock)
  }

  /** The admitted request still fits: nobody else can have changed what it was decided on. */
  predicate ChoiceFits(s: Db, user: string)
    requires user in s.open
  {
    var choice := s.open[user].chosen;
    choice.Chosen? ==>
      && choice.request.user == user && choice.request.kind in REWARD_CAPS && choice.request.credits > 0
      && Upto(choice.at, s.clock)
      && FitsCaps(Visible(s, user), choice.request, choice.at)
  }

  predicate SoundTxn(s: Db, user: string)
    requires user in s.open
  {
    && SoundRows(s.open[user].pending, s.clock)
    && (forall row :: row in s.open[user].pending ==> row.user == user)
    && ChoiceFits(s, user)
  }

  predicate Sound(s: Db) {
    SoundRows(s.grants, s.clock) && forall user :: user in s.open ==> SoundTxn(s, user)
  }

  lemma TickKeeps(s: Db, now: Stamp)
    requires Sound(s) && Upto(s.clock, now)
    ensures Sound(s.(clock := now))
  {
    hide FitsCaps, Total;
    var t := s.(clock := now);
    forall user | user in s.open
      ensures SoundTxn(t, user)
    {
      assert SoundTxn(s, user);
      assert Visible(t, user) == Visible(s, user);
    }
  }

  lemma DecidingKeeps(s: Db, request: Request)
    requires Sound(s)
    ensures Sound(Deciding(s, request))
  {
    hide FitsCaps, Total;
    var t := Deciding(s, request);
    forall user | user in t.open
      ensures SoundTxn(t, user)
    {
      assert user in s.open ==> SoundTxn(s, user);
      assert Visible(t, user) == Visible(s, user);
    }
  }

  lemma InsertingKeeps(s: Db, user: string)
    requires Sound(s)
    ensures Sound(Inserting(s, user))
  {
    hide FitsCaps, Total;
    var t := Inserting(s, user);
    forall other | other in t.open
      ensures SoundTxn(t, other)
    {
      assert SoundTxn(s, other);
      assert other != user ==> Visible(t, other) == Visible(s, other);
    }
  }

  /** Closing or committing one user's transaction changes no total another user sees. */
  lemma OthersSeeTheSame(s: Db, user: string, other: string, kind: string, window: Window)
    requires Sound(s) && other != user
    ensures Total(Visible(Committing(s, user), other), other, kind, window) == Total(Visible(s, other), other, kind, window)
  {
    hide FitsCaps, Total, Within;
    var t := Committing(s, user);
    if t.grants != s.grants {
      var pending := s.open[user].pending;
      assert SoundTxn(s, user);
      OthersDoNotCount(pending, other, kind, window);
      TotalConcat(s.grants, pending, other, kind, window);
      TotalConcat(t.grants, Pending(s, other), other, kind, window);
      TotalConcat(s.grants, Pending(s, other), other, kind, window);
    }
  }

  lemma CommittingKeeps(s: Db, user: string)
    requires Sound(s)
    ensures Sound(Committing(s, user))
  {
    hide Total;
    var t := Committing(s, user);
    if user in s.open {
      assert SoundTxn(s, user);
    }
    forall other | other in t.open
      ensures SoundTxn(t, other)
    {
      assert SoundTxn(s, other);
      if other != user && t.open[other].chosen.Chosen? {
        var choice := t.open[other].chosen;
        OthersSeeTheSame(s, user, other, choice.request.kind, SinceDay(choice.at));
        OthersSeeTheSame(s, user, other, choice.request.kind, SinceMonth(choice.at.month));
        OthersSeeTheSame(s, user, other, choice.request.kind, Ever);
      }
    }
  }

  lemma ClosingKeeps(s: Db, user: string)
    requires Sound(s)
    ensures Sound(Closed(s, user))
  {
    hide FitsCaps, Total;
    var t := Closed(s, user);
    forall other | other in t.open
      ensures SoundTxn(t, other)
    {
      assert SoundTxn(s, other);
      assert Visible(t, other) == Visible(s, other);
    }
  }

  // ------------------------------------------------------------------------------ caps

  predicate Capped(s: Db, user: string, kind: string, at: Stamp)
    requires kind in REWARD_CAPS
  {
    WithinCaps(Visible(s, user), user, kind, at)
  }

  /** The row of an admitted request, created no earlier than it was decided, keeps the caps: the
      sums it was decided on already cover the day and month the row falls in. */
  lemma AdmittedRowFits(rows: seq<Charge>, request: Request, decided: Stamp, created: Stamp, at: Stamp)
    requires request.kind in REWARD_CAPS && request.credits > 0
    requires NonNegative(rows) && FitsCaps(rows, request, decided) && Upto(decided, created)
    requires WithinCaps(rows, request.user, request.kind, at)
    ensures WithinCaps(rows + [GrantOf(request, created)], request.user, request.kind, at)
  {
    hide Total;
    var row, cap := GrantOf(request, created), REWARD_CAPS[request.kind];
    RowFits(rows, row, OnDay(at), SinceDay(decided), cap.daily);
    RowFits(rows, row, InMonth(at.month), SinceMonth(decided.month), cap.monthly);
    RowFits(rows, row, Ever, Ever, cap.lifetime);
  }

  lemma InsertingKeepsCaps(s: Db, who: string, user: string, kind: string, at: Stamp)
    requires Sound(s) && kind in REWARD_CAPS && Capped(s, user, kind, at)
    ensures Capped(Inserting(s, who), user, kind, at)
  {
    hide Total, Within, FitsCaps;
    var t := Inserting(s, who);
    if who == user && t != s {
      assert SoundTxn(s, user);
      var choice := s.open[user].chosen;
      var row := GrantOf(choice.request, s.clock);
      assert Visible(t, user) == Visible(s, user) + [row];
      if choice.request.kind == kind {
        AdmittedRowFits(Visible(s, user), choice.request, choice.at, s.clock, at);
      } else {
        OtherKindKeepsCaps(Visible(s, user), row, user, kind, at);
      }
    } else {
      assert Visible(t, user) == Visible(s, user);
    }
  }

  lemma OtherKindKeepsCaps(rows: seq<Charge>, row: Charge, user: string, kind: string, at: Stamp)
    requires kind in REWARD_CAPS && row.kind != kind && WithinCaps(rows, user, kind, at)
    ensures WithinCaps(rows + [row], user, kind, at)
  {
    hide Within;
    assert (rows + [row])[..|rows|] == rows;
  }

  lemma CommittingKeepsCaps(s: Db, who: string, user: string, kind: string, at: Stamp)
    requires Sound(s) && kind in REWARD_CAPS && Capped(s, user, kind, at)
    ensures Capped(Committing(s, who), user, kind, at)
  {
    hide Total, Within, FitsCaps;
    if who != user {
      OthersSeeTheSame(s, who, user, kind, OnDay(at));
      OthersSeeTheSame(s, who, user, kind, InMonth(at.month));
      OthersSeeTheSame(s, who, user, kind, Ever);
    } else if Committing(s, who).grants == s.grants {
      ClosingKeepsCaps(s, who, user, kind, at);
    } else {
      assert Visible(Committing(s, who), user) == Visible(s, user);
    }
  }

  lemma ClosingKeepsCaps(s: Db, who: string, user: string, kind: string, at: Stamp)
    requires Sound(s) && kind in REWARD_CAPS && Capped(s, user, kind, at)
    ensures Capped(Closed(s, who), user, kind, at)
  {
    hide Total, FitsCaps;
    var t := Closed(s, who);
    if who == user {
      CommittedCountsLess(s, user, kind, OnDay(at));
      CommittedCountsLess(s, user, kind, InMonth(at.month));
      CommittedCountsLess(s, user, kind, Ever);
      assert Visible(t, user) == s.grants;
    } else {
      assert Visible(t, user) == Visible(s, user);
    }
  }

  /** What is committed is part of what the user's own transaction sees. */
  lemma CommittedCountsLess(s: Db, user: string, kind: string, window: Window)
    requires Sound(s)
    ensures Total(s.grants, user, kind, window) <= Total(Visible(s, user), user, kind, window)
  {
    hide Total, FitsCaps, Within;
    assert user in s.open ==> SoundTxn(s, user);
    TotalConcat(s.grants, Pending(s, user), user, kind, window);
    WiderCountsMore(Pending(s, user), user, kind, window, window);
  }

  lemma StepKeeps(s: Db, event: Event, user: string, kind: string, at: Stamp)
    requires Sound(s) && kind in REWARD_CAPS && Capped(s, user, kind, at)
    ensures Sound(Step(s, event)) && Capped(Step(s, event), user, kind, at)
  {
    hide Sound, Deciding, Inserting, Committing, WithinCaps;
    if Upto(s.clock, event.now) {
      TickKeeps(s, event.now);
    }
    var ticked := if Upto(s.clock, event.now) then s.(clock := event.now) else s;
    assert Visible(ticked, user) == Visible(s, user);
    match event.action
    case DecideFor(request) =>
      DecidingKeeps(ticked, request);
      DecidingChangesNoRow(ticked, request, user);
    case Insert(who) =>
      InsertingKeeps(ticked, who);
      InsertingKeepsCaps(ticked, who, user, kind, at);
    case Commit(who) =>
      CommittingKeeps(ticked, who);
      CommittingKeepsCaps(ticked, who, user, kind, at);
    case Rollback(who) =>
      ClosingKeeps(ticked, who);
      ClosingKeepsCaps(ticked, who, user, kind, at);
  }

  lemma DecidingChangesNoRow(s: Db, request: Request, user: string)
    ensures Visible(Deciding(s, request), user) == Visible(s, user)
  {
    hide Decide;
  }

  lemma {:induction false} RunKeeps(start: Stamp, events: seq<Event>, user: string, kind: string, at: Stamp)
    requires kind in REWARD_CAPS
    ensures Sound(Run(start, events)) && Capped(Run(start, events), user, kind, at)
  {
    hide Sound, Capped, Step;
    if events == [] {
      NothingGrantedAtStart(start, user, kind, at);
    } else {
      RunKeeps(start, events[..|events| - 1], user, kind, at);
      StepKeeps(Run(start, events[..|events| - 1]), events[|events| - 1], user, kind, at);
    }
  }

  lemma NothingGrantedAtStart(start: Stamp, user: string, kind: string, at: Stamp)
    requires kind in REWARD_CAPS
    ensures Sound(Db(start, [], [], map[])) && Capped(Db(start, [], [], map[]), user, kind, at)
  {
  }

  /** In every reachable state, for every user and reward type, the committed credits of any day, of
      any month and of all time stay within the caps. */
  lemma CapsHold(start: Stamp, events: seq<Event>, user: string, kind: string, at: Stamp)
    requires kind in REWARD_CAPS
    ensures WithinCaps(Run(start, events).grants, user, kind, at)
  {
    hide Run, Total, Within, Sound;
    RunKeeps(start, events, user, kind, at);
    var s := Run(start, events);
    CommittedCountsLess(s, user, kind, OnDay(at));
    CommittedCountsLess(s, user, kind, InMonth(at.month));
    CommittedCountsLess(s, user, kind, Ever);
  }

  // ----------------------------------------------------------------------- idempotency

  predicate DistinctKeys(rows: seq<Charge>) {
    forall i, j :: 0 <= i < j < |rows| ==> rows[i].key != rows[j].key
  }

  /** One grant and one ledger entry per key, in step; a transaction never repeats a key. */
  predicate OnePerKey(s: Db) {
    && DistinctKeys(s.grants) && s.ledger == Entries(s.grants)
    && forall user :: user in s.open ==>
         && DistinctKeys(s.open[user].pending)
         && (s.open[user].chosen.Chosen? ==> !HasKey(s.open[user].pending, s.open[user].chosen.request.key))
  }

  lemma DistinctJoin(a: seq<Charge>, b: seq<Charge>)
    requires DistinctKeys(a) && DistinctKeys(b) && !Clash(a, b)
    ensures DistinctKeys(a + b)
  {
    forall i, j | 0 <= i < j < |a + b|
      ensures (a + b)[i].key != (a + b)[j].key
    {
      if i < |a| <= j {
        assert b[j - |a|] in b && a[i] in a;
      }
    }
  }

  lemma StepKeepsOnePerKey(s: Db, event: Event)
    requires OnePerKey(s)
    ensures OnePerKey(Step(s, event))
    ensures s.grants <= Step(s, event).grants && s.ledger <= Step(s, event).ledger
  {
    hide FitsCaps, Total, Upto;
    match event.action
    case Commit(user) =>
      if user in s.open && !Clash(s.grants, s.open[user].pending) {
        DistinctJoin(s.grants, s.open[user].pending);
        assert Entries(s.grants + s.open[user].pending) == Entries(s.grants) + Entries(s.open[user].pending);
      }
    case _ =>
  }

  /** In every reachable state each key has at most one grant, each grant exactly its own ledger
      entry, and nothing recorded is ever changed or removed. */
  lemma {:induction false} OneGrantPerKey(start: Stamp, events: seq<Event>, k: nat)
    requires k <= |events|
    ensures OnePerKey(Run(start, events))
    ensures Run(start, events[..k]).grants <= Run(start, events).grants
    ensures Run(start, events[..k]).ledger <= Run(start, events).ledger
    decreases |events|
  {
    hide OnePerKey, Step;
    if events == [] {
      NoKeyAtStart(start);
    } else {
      var init := events[..|events| - 1];
      OneGrantPerKey(start, init, if k < |events| then k else 0);
      StepKeepsOnePerKey(Run(start, init), events[|events| - 1]);
      if k < |events| {
        assert init[..k] == events[..k];
      } else {
        assert events[..k] == events;
      }
    }
  }

  lemma NoKeyAtStart(start: Stamp)
    ensures OnePerKey(Db(start, [], [], map[]))
  {
  }

  /** A key once committed grants nothing again: whatever request carries it, in whatever
      transaction, the grants under that key stay the one that is there. */
  lemma ReplayGrantsNothing(start: Stamp, events: seq<Event>, k: nat, i: nat, j: nat)
    requires k <= |events| && i < |Run(start, events[..k]).grants|
    requires j < |Run(start, events).grants|
    requires Run(start, events).grants[j].key == Run(start, events[..k]).grants[i].key
    ensures j == i && Run(start, events).grants[j] == Run(start, events[..k]).grants[i]
  {
    hide Run;
    OneGrantPerKey(start, events, k);
  }

  /** Credits granted and credits in the ledger agree for every user. */
  function LedgerTotal(ledger: seq<Entry>, user: string): int {
    if ledger == [] then 0
    else
      var last := ledger[|ledger| - 1];
      LedgerTotal(ledger[..|ledger| - 1], user) + if last.user == user then last.delta else 0
  }

  function GrantTotal(rows: seq<Charge>, user: string): int {
    if rows == [] then 0
    else
      var last := rows[|rows| - 1];
      GrantTotal(rows[..|rows| - 1], user) + if last.user == user then last.credits else 0
  }

  lemma {:induction false} EntriesTotal(rows: seq<Charge>, user: string)
    ensures LedgerTotal(Entries(rows), user) == GrantTotal(rows, user)
  {
    if rows != [] {
      assert Entries(rows)[..|rows| - 1] == Entries(rows[..|rows| - 1]);
      EntriesTotal(rows[..|rows| - 1], user);
    }
  }

  lemma LedgerMatchesGrants(start: Stamp, events: seq<Event>, user: string)
    ensures LedgerTotal(Run(start, events).ledger, user) == GrantTotal(Run(start, events).grants, user)
  {
    hide Run;
    OneGrantPerKey(start, events, 0);
    EntriesTotal(Run(start, events).grants, user);
  }
}
