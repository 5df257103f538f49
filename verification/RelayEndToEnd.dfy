/** From the Messages database to the reply: the inbound loop and the relay as one machine.  An
    inbound message is answered at most once although the loop may hand it on twice. */
module RelayEndToEnd {
  import opened RelayDelivery
  import opened DeliveryLaws
  import opened Decimals
  import I = InboundWatermark
  import L = InboundLaws

  /** `f"inbound-reply-{message_rowid}"`. */
  function ReplyKey(rowid: int): string {
    "inbound-reply-" + if rowid >= 0 then Decimal(rowid) else "-" + Decimal(-rowid)
  }

  lemma ReplyKeyInjective(m: nat, n: nat)
    requires ReplyKey(m) == ReplyKey(n)
    ensures m == n
  {
    hide Decimal;
    assert Decimal(m) == ReplyKey(m)[|"inbound-reply-"|..];
    assert Decimal(n) == ReplyKey(n)[|"inbound-reply-"|..];
    DecimalInjective(m, n);
  }

  // ------------------------------------------------------------------------ the machine

  /** The inbound loop with what is left of its batch, and the relay it replies through. */
  datatype Whole = Whole(loop: I.Loop, batch: seq<I.Row>, relay: Relay)

  datatype Move =
    | Arrive(rows: seq<I.Row>)
    | Poll(between: seq<I.Row>)
    | Take(replies: bool, recipient: string, text: string)
    | Answers(answer: Answer, dies: bool)
    | Breaks(dies: bool)
    | Http(action: Action)

  /** A move after some time. */
  datatype Moment = Moment(elapsed: nat, move: Move)

  const BEGINNING := Whole(I.START, [], START)

  function RelayStep(w: Whole, elapsed: nat, action: Action): Whole {
    w.(relay := Step(w.relay, Event(elapsed, action)))
  }

  /** The loop thread is between messages. */
  predicate Ready(w: Whole) { w.loop.alive && w.relay.inbound.Idle? }

  /** The poll's two reads: its batch, and the watermark. */
  function Polling(w: Whole, between: seq<I.Row>): Whole {
    if !Ready(w) || w.batch != [] then w
    else
      var s, latest := w.loop, I.Latest(w.loop.table);
      w.(loop := I.Loop(s.table + between, if s.initial == I.Unset then I.Upto(latest) else s.initial,
                        I.Upto(latest), s.handled, true),
         batch := I.Batch(s.watermark, s.table + between))
  }

  /** The next message reaches the handler, which may call for a reply. */
  function Taking(w: Whole, elapsed: nat, replies: bool, recipient: string, text: string): Whole {
    if !Ready(w) || w.batch == [] then w
    else
      var row := w.batch[0];
      var taken := w.(loop := w.loop.(handled := w.loop.handled + [row]), batch := w.batch[1..]);
      if replies then RelayStep(taken, elapsed, BeginBy(Inbound, ReplyKey(row.rowid), recipient, text)) else taken
  }

  /** The reply ends; one that raises goes on with the next message, or ends the loop, batch and all. */
  function Answering(w: Whole, elapsed: nat, answer: Answer, dies: bool): Whole {
    if w.relay.inbound.Idle? then w
    else
      var answered := RelayStep(w, elapsed, EndBy(Inbound, Answered(answer)));
      if answer == Raised && dies then answered.(loop := w.loop.(alive := false), batch := []) else answered
  }

  /** Any other error that escapes the inner handler drops the rest of the batch. */
  function Breaking(w: Whole, dies: bool): Whole {
    if !Ready(w) || w.batch == [] then w else w.(loop := w.loop.(alive := !dies), batch := [])
  }

  function ByApi(w: Whole, elapsed: nat, action: Action): Whole {
    if action.who == Inbound then w else RelayStep(w, elapsed, action)
  }

  function Moved(w: Whole, moment: Moment): Whole {
    match moment.move
    case Arrive(rows) => w.(loop := w.loop.(table := w.loop.table + rows))
    case Poll(between) => Polling(w, between)
    case Take(replies, recipient, text) => Taking(w, moment.elapsed, replies, recipient, text)
    case Answers(answer, dies) => Answering(w, moment.elapsed, answer, dies)
    case Breaks(dies) => Breaking(w, dies)
    case Http(action) => ByApi(w, moment.elapsed, action)
  }

  function RunAll(moments: seq<Moment>): Whole {
    if moments == [] then BEGINNING
    else Moved(RunAll(moments[..|moments| - 1]), moments[|moments| - 1])
  }

  /** No HTTP client uses a key. */
  predicate UnusedByApi(moments: seq<Moment>, key: string) {
    forall m :: m in moments && m.move.Http? && m.move.action.BeginBy? ==> m.move.action.key != key
  }

  // ------------------------------------------------------------------------- its calls

  function CallsBy(calls: seq<Call>, key: string): nat {
    if calls == [] then 0
    else CallsBy(calls[..|calls| - 1], key) + if calls[|calls| - 1].key == key then 1 else 0
  }

  /** A reply is started before it is called, and called at most once. */
  predicate CallsCovered(s: Relay, key: string, replies: nat) {
    && !FliesOn(s.api, key)
    && CallsBy(s.calls, key) + (if FliesOn(s.inbound, key) then 1 else 0) <= replies
  }

  lemma CallsBySnoc(calls: seq<Call>, call: Call, key: string)
    ensures CallsBy(calls + [call], key) == CallsBy(calls, key) + if call.key == key then 1 else 0
  {
    assert (calls + [call])[..|calls|] == calls;
  }

  lemma StepKeepsCallsCovered(s: Relay, event: Event, key: string, replies: nat)
    requires CallsCovered(s, key, replies)
    requires event.action.BeginBy? && event.action.who == Api ==> event.action.key != key
    ensures var action := event.action;
            var more := if action.BeginBy? && action.who == Inbound && action.key == key then 1 else 0;
            CallsCovered(Step(s, event), key, replies + more)
  {
    hide StatusAfter, RetryAfter, AttemptNumber, Passes, CallsBy, Recorded;
    if event.action.EndBy? && event.action.finish.Answered? {
      var who := event.action.who;
      var flight := FlightOf(s, who);
      if flight.Flying? {
        var call := Call(who, flight.key, flight.attempt, flight.started,
                         s.clock + event.elapsed, event.action.finish.answer);
        CallsBySnoc(s.calls, call, key);
      }
    }
  }

  // ------------------------------------------------------------------------- invariants

  /** The loop as if the rest of its batch were handed on already. */
  function Planned(w: Whole): I.Loop { w.loop.(handled := w.loop.handled + w.batch) }

  predicate RowsAreKnown(w: Whole) { forall r :: r in w.loop.handled + w.batch ==> r in w.loop.table }

  /** What a row's messages and replies keep: planned hand-ons within bounds, every call covered by a
      hand-on, at most one success. */
  predicate Kept(w: Whole, row: I.Row) {
    && RowsAreKnown(w)
    && L.Handed(Planned(w), row)
    && CallsCovered(w.relay, ReplyKey(row.rowid), L.Times(w.loop.handled, row))
    && SentOnce(w.relay, ReplyKey(row.rowid))
  }

  lemma ArrivingKeeps(w: Whole, rows: seq<I.Row>, row: I.Row)
    requires Kept(w, row) && L.Ascending(w.loop.table + rows)
    ensures Kept(w.(loop := w.loop.(table := w.loop.table + rows)), row)
  {
    hide L.Ascending, L.Handed, CallsCovered, SentOnce, ReplyKey;
    L.ArrivalKeeps(Planned(w), rows, row);
  }

  lemma PollingKeeps(w: Whole, between: seq<I.Row>, row: I.Row)
    requires Kept(w, row) && L.Ascending(w.loop.table + between)
    ensures Kept(Polling(w, between), row)
  {
    hide L.Ascending, L.Handed, CallsCovered, SentOnce, ReplyKey, I.Latest, I.Wanted;
    if Ready(w) && w.batch == [] {
      var t := Polling(w, between);
      assert w.loop.handled + [] == w.loop.handled && w.loop.table + [] == w.loop.table;
      L.ReadKeeps(w.loop, between, I.Completes, row);
      assert t.batch[..|t.batch|] == t.batch;
      assert Planned(t) == I.Step(w.loop, I.Turn([], I.Reads(between, I.Completes)));
      forall r | r in t.batch
        ensures r in t.loop.table
      {
        L.WantedOnce(w.loop.table + between, w.loop.watermark.rowid, r);
        L.NotInIsNoTimes(t.batch, r);
      }
    }
  }

  /** Fewer hand-ons keep every bound on them. */
  lemma FewerKeep(s: I.Loop, handled: seq<I.Row>, row: I.Row)
    requires L.Handed(s, row) && L.Times(handled, row) <= L.Times(s.handled, row)
    ensures L.Handed(s.(handled := handled), row)
  {
    hide L.Times;
  }

  lemma TakingKeeps(w: Whole, elapsed: nat, replies: bool, recipient: string, text: string, table: seq<I.Row>,
      row: I.Row)
    requires Kept(w, row) && L.Ascending(table) && row in table && w.loop.table <= table
    ensures Kept(Taking(w, elapsed, replies, recipient, text), row)
  {
    hide L.Ascending, L.Handed, CallsCovered, SentOnce, ReplyKey, L.Times, Step;
    if Ready(w) && w.batch != [] {
      var next := w.batch[0];
      var t := Taking(w, elapsed, replies, recipient, text);
      assert w.loop.handled + [next] + w.batch[1..] == w.loop.handled + w.batch by {
        assert w.batch == [next] + w.batch[1..];
      }
      assert Planned(t) == Planned(w);
      L.TimesConcat(w.loop.handled, [next], row);
      OneOfItself(next, row);
      var more := if next == row then 1 else 0;
      MoreCovers(w.relay, ReplyKey(row.rowid), L.Times(w.loop.handled, row), more);
      if replies {
        assert next in w.loop.handled + w.batch;
        assert next in w.loop.table && next in table;
        SameKeySameRow(table, next, row);
        var begin := Event(elapsed, BeginBy(Inbound, ReplyKey(next.rowid), recipient, text));
        StepKeepsCallsCovered(w.relay, begin, ReplyKey(row.rowid), L.Times(w.loop.handled, row));
        NoCrossing(w.relay, begin, ReplyKey(row.rowid), L.Times(w.loop.handled, row));
        StepKeepsSentOnce(w.relay, begin, ReplyKey(row.rowid));
      }
    }
  }

  lemma OneOfItself(a: I.Row, b: I.Row)
    ensures L.Times([a], b) == if a == b then 1 else 0
  {
  }

  lemma MoreCovers(s: Relay, key: string, replies: nat, more: nat)
    requires CallsCovered(s, key, replies)
    ensures CallsCovered(s, key, replies + more)
  {
  }

  /** Rows of one table with one reply key are one row. */
  lemma SameKeySameRow(table: seq<I.Row>, a: I.Row, b: I.Row)
    requires L.Ascending(table) && a in table && b in table
    ensures ReplyKey(a.rowid) == ReplyKey(b.rowid) <==> a == b
  {
    hide ReplyKey;
    if ReplyKey(a.rowid) == ReplyKey(b.rowid) {
      ReplyKeyInjective(a.rowid, b.rowid);
    }
  }

  /** A key the API never uses is never crossed. */
  lemma NoCrossing(s: Relay, event: Event, key: string, replies: nat)
    requires CallsCovered(s, key, replies)
    requires event.action.BeginBy? && event.action.who == Api ==> event.action.key != key
    ensures !Crossed(s, key) && !Crossed(Step(s, event), key)
  {
    hide StatusAfter, RetryAfter, AttemptNumber, Passes, CallsBy, Recorded;
  }

  lemma RelayKeeps(w: Whole, elapsed: nat, action: Action, row: I.Row)
    requires Kept(w, row) && (action.BeginBy? ==> action.who == Api && action.key != ReplyKey(row.rowid))
    ensures Kept(RelayStep(w, elapsed, action), row)
  {
    hide L.Handed, CallsCovered, SentOnce, ReplyKey, L.Times, Step;
    var event, replies := Event(elapsed, action), L.Times(w.loop.handled, row);
    StepKeepsCallsCovered(w.relay, event, ReplyKey(row.rowid), replies);
    NoCrossing(w.relay, event, ReplyKey(row.rowid), replies);
    StepKeepsSentOnce(w.relay, event, ReplyKey(row.rowid));
  }

  lemma DroppingKeeps(w: Whole, alive: bool, row: I.Row)
    requires Kept(w, row)
    ensures Kept(w.(loop := w.loop.(alive := alive), batch := []), row)
  {
    hide CallsCovered, SentOnce, ReplyKey;
    L.TimesConcat(w.loop.handled, w.batch, row);
    assert w.loop.handled + [] == w.loop.handled;
    FewerKeep(Planned(w), w.loop.handled, row);
  }

  lemma MoveKeeps(w: Whole, moment: Moment, table: seq<I.Row>, row: I.Row)
    requires Kept(w, row) && L.Ascending(Moved(w, moment).loop.table)
    requires var m := moment.move; m.Http? && m.action.BeginBy? ==> m.action.key != ReplyKey(row.rowid)
    requires L.Ascending(table) && row in table && w.loop.table <= table
    ensures Kept(Moved(w, moment), row)
  {
    hide Kept, L.Ascending, Polling, Taking, RelayStep, ReplyKey;
    match moment.move
    case Arrive(rows) => ArrivingKeeps(w, rows, row);
    case Poll(between) => PollMove(w, between, row);
    case Take(replies, recipient, text) =>
      TakingKeeps(w, moment.elapsed, replies, recipient, text, table, row);
    case Answers(answer, _) =>
      if w.relay.inbound.Flying? {
        var answered := RelayStep(w, moment.elapsed, EndBy(Inbound, Answered(answer)));
        RelayKeeps(w, moment.elapsed, EndBy(Inbound, Answered(answer)), row);
        RelayStepSameLoop(w, moment.elapsed, EndBy(Inbound, Answered(answer)));
        DroppingKeeps(answered, false, row);
      }
    case Breaks(dies) => DroppingKeeps(w, !dies, row);
    case Http(action) =>
      if action.who == Api {
        RelayKeeps(w, moment.elapsed, action, row);
      }
  }

  lemma RelayStepSameLoop(w: Whole, elapsed: nat, action: Action)
    ensures RelayStep(w, elapsed, action).loop == w.loop && RelayStep(w, elapsed, action).batch == w.batch
  {
    hide Step;
  }

  lemma PollMove(w: Whole, between: seq<I.Row>, row: I.Row)
    requires Kept(w, row) && L.Ascending(Polling(w, between).loop.table)
    ensures Kept(Polling(w, between), row)
  {
    hide Kept, L.Ascending, I.Latest, I.Batch;
    if Ready(w) && w.batch == [] {
      PollingKeeps(w, between, row);
    }
  }

  lemma TableGrows(w: Whole, moment: Moment)
    ensures w.loop.table <= Moved(w, moment).loop.table
  {
    hide ReplyKey, Step, I.Batch, I.Latest;
  }

  lemma PrefixAscends(part: seq<I.Row>, table: seq<I.Row>)
    requires part <= table && L.Ascending(table)
    ensures L.Ascending(part)
  {
    assert table == part + table[|part|..];
    L.AscendingPrefix(part, table[|part|..]);
  }

  lemma {:induction false} RunKeeps(moments: seq<Moment>, table: seq<I.Row>, row: I.Row)
    requires L.Ascending(table) && row in table && RunAll(moments).loop.table <= table
    requires UnusedByApi(moments, ReplyKey(row.rowid))
    ensures Kept(RunAll(moments), row)
  {
    hide Kept, Moved, ReplyKey, L.Ascending;
    if moments == [] {
      NothingYet(row);
    } else {
      var init, last := moments[..|moments| - 1], moments[|moments| - 1];
      assert moments == init + [last] && last in moments;
      TableGrows(RunAll(init), last);
      RunKeeps(init, table, row);
      PrefixAscends(RunAll(moments).loop.table, table);
      MoveKeeps(RunAll(init), last, table, row);
    }
  }

  lemma NothingYet(row: I.Row)
    ensures Kept(BEGINNING, row)
  {
    hide ReplyKey;
  }

  /** End to end, over every run of the machine, whatever arrives, breaks, answers or comes in over
      HTTP: a message reaches the handler at most twice, its reply is tried at most once each time,
      and is sent at most once, as long as no HTTP client uses its key. */
  lemma EndToEnd(moments: seq<Moment>, row: I.Row)
    requires L.Ascending(RunAll(moments).loop.table) && row in RunAll(moments).loop.table
    requires UnusedByApi(moments, ReplyKey(row.rowid))
    ensures var w, key := RunAll(moments), ReplyKey(row.rowid);
            && CallsBy(w.relay.calls, key) <= L.Times(w.loop.handled, row) <= 2
            && Successes(w.relay.calls, key) <= 1
            && (Successes(w.relay.calls, key) == 1 <==> HasStatus(w.relay.deliveries, key, Sent))
  {
    hide RunAll, ReplyKey, L.Ascending, Successes, CallsBy;
    var w := RunAll(moments);
    RunKeeps(moments, w.loop.table, row);
    L.TimesConcat(w.loop.handled, w.batch, row);
  }
}
