/** The inbound side of the iMessage relay (inbound.py): polling the Messages database past a
    stored watermark and handing every new message to the agent.  The database is read twice in a
    poll, first for its largest rowid and then for the rows, and may grow in between. */
module InboundWatermark {

  /** A row of the Messages database; the text is what decoding it gives, empty if nothing. */
  datatype Row = Row(rowid: int, fromMe: bool, viaIMessage: bool, hasHandle: bool, text: string)

  datatype Mark = Unset | Upto(rowid: int)

  /** How handling a batch ends: with all of it handled, or with an error the inner handler does
      not catch after some messages; such an error may also end the loop for good. */
  datatype Stop = Completes | BreaksAfter(messages: nat, dies: bool)

  /** A poll fails and is rolled back, or reads the database, which grows between the two reads. */
  datatype Poll = Fails | Reads(between: seq<Row>, stop: Stop)

  /** One turn of the loop: rows arriving before it, then the poll. */
  datatype Turn = Turn(before: seq<Row>, poll: Poll)

  /** The loop, with the table it reads and every row handed on so far. */
  datatype Loop = Loop(table: seq<Row>, initial: Mark, watermark: Mark, handled: seq<Row>, alive: bool)

  const START := Loop([], Unset, Unset, [], true)

  /** `SELECT COALESCE(MAX(rowid), 0)`. */
  function Latest(table: seq<Row>): int {
    if table == [] then 0
    else
      var earlier, last := Latest(table[..|table| - 1]), table[|table| - 1].rowid;
      if |table| == 1 || last > earlier then last else earlier
  }

  /** Rows the query returns and the comprehension keeps. */
  predicate Inbound(row: Row) { !row.fromMe && row.viaIMessage && row.hasHandle && row.text != [] }

  function Wanted(table: seq<Row>, watermark: int): seq<Row> {
    if table == [] then []
    else
      var last := table[|table| - 1];
      Wanted(table[..|table| - 1], watermark) + if last.rowid > watermark && Inbound(last) then [last] else []
  }

  /** `_new_messages`, given the table at each of the two reads. */
  function Batch(watermark: Mark, second: seq<Row>): seq<Row> {
    if watermark == Unset then [] else Wanted(second, watermark.rowid)
  }

  function Reached(batch: seq<Row>, stop: Stop): (n: nat)
    ensures n <= |batch|
  {
    if stop == Completes || stop.messages > |batch| then |batch| else stop.messages
  }

  predicate Survives(batch: seq<Row>, stop: Stop) { stop == Completes || !stop.dies || batch == [] }

  function Step(s: Loop, turn: Turn): Loop {
    var first := s.table + turn.before;
    match turn.poll
    case Fails => s.(table := first)
    case Reads(between, stop) =>
      if !s.alive then s.(table := first + between)
      else
        var batch := Batch(s.watermark, first + between);
        Loop(
          first + between,
          if s.initial == Unset then Upto(Latest(first)) else s.initial,
          Upto(Latest(first)),
          s.handled + batch[..Reached(batch, stop)],
          Survives(batch, stop))
  }

  function Run(turns: seq<Turn>): Loop {
    if turns == [] then START else Step(Run(turns[..|turns| - 1]), turns[|turns| - 1])
  }

  // ------------------------------------------------------------------------ methods

  class Poller {
    var watermark: Mark
    var handled: seq<Row>

    constructor ()
      ensures watermark == Unset && handled == []
    {
      watermark, handled := Unset, [];
    }

    /** `_new_messages`: the watermark moves to the first read's maximum even though the rows come
        from the second read. */
    method NewMessages(first: seq<Row>, second: seq<Row>) returns (batch: seq<Row>)
      modifies this`watermark
      ensures watermark == Upto(Latest(first))
      ensures batch == old(Batch(watermark, second))
    {
      var latest := Latest(first);
      if watermark == Unset {
        watermark := Upto(latest);
        return [];
      }
      batch := [];
      for index := 0 to |second|
        invariant batch == Wanted(second[..index], watermark.rowid)
        invariant watermark == old(watermark)
      {
        assert second[..index + 1][..index] == second[..index];
        if second[index].rowid > watermark.rowid && Inbound(second[index]) {
          batch := batch + [second[index]];
        }
      }
      assert second[..|second|] == second;
      watermark := Upto(latest);
    }

    /** `inbound_loop` over a scripted environment. */
    method InboundLoop(turns: seq<Turn>) returns (alive: bool)
      requires watermark == Unset && handled == []
      modifies this
      ensures var s := Run(turns); watermark == s.watermark && handled == s.handled && alive == s.alive
    {
      alive := true;
      var table: seq<Row> := [];
      for index := 0 to |turns|
        invariant var s := Run(turns[..index]);
                  && table == s.table && watermark == s.watermark
                  && handled == s.handled && alive == s.alive
      {
        assert turns[..index + 1][..index] == turns[..index];
        var first := table + turns[index].before;
        match turns[index].poll {
          case Fails =>
            table := first;
          case Reads(between, stop) =>
            table := first + between;
            if alive {
              var batch := NewMessages(first, table);
              alive := HandleBatch(batch, stop);
            }
        }
      }
      assert turns[..|turns|] == turns;
    }

    /** The inner loop over one batch. */
    method HandleBatch(batch: seq<Row>, stop: Stop) returns (alive: bool)
      modifies this`handled
      ensures handled == old(handled) + batch[..Reached(batch, stop)]
      ensures alive == Survives(batch, stop)
    {
      var index := 0;
      while index < |batch|
        invariant index <= |batch|
        invariant handled == old(handled) + batch[..index]
        invariant index <= Reached(batch, stop)
      {
        if stop.BreaksAfter? && stop.messages == index {
          return !stop.dies;
        }
        handled := handled + [batch[index]];
        index := index + 1;
      }
      alive := Survives(batch, stop);
    }
  }
}
