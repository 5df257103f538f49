/** The delivery table of the iMessage relay (relay.py).  The HTTP handlers run one after the other
    on an event loop; the inbound thread runs beside them, so between the look-up and the record
    of one process the other may do either. */
module RelayDelivery {

  datatype Status = Sent | FailedRetryable | FailedPermanent

  datatype Time = Never | At(second: int)

  datatype Delivery = Delivery(
    recipient: string,
    message: string,
    status: Status,
    attempts: nat,
    lastAttempt: int,
    nextRetry: Time)

  /** What the Messages application answers; raising leaves no record. */
  datatype Answer = Delivered | Undelivered(status: string) | Raised

  /** How a request ends once it has passed the look-up.  Only media can be invalid or fail to
      convert, and neither reaches the provider. */
  datatype Finish = Invalid | Unconvertible | Answered(answer: Answer)

  datatype Process = Api | Inbound

  /** A request between its look-up and its record. */
  datatype Flight = Idle | Flying(key: string, recipient: string, message: string, attempt: nat, started: int)

  /** A provider call that has ended. */
  datatype Call = Call(who: Process, key: string, attempt: nat, started: int, ended: int, answer: Answer)

  datatype Relay = Relay(
    clock: int,
    deliveries: map<string, Delivery>,
    api: Flight,
    inbound: Flight,
    calls: seq<Call>)

  const PERMANENT := {"unsupported_os", "missing_applescript", "invalid_recipient"}

  const START := Relay(0, map[], Idle, Idle, [])

  /** Minutes to wait after an attempt: the entry of (1, 5, 30) at `min(attempt - 1, 2)`. */
  function Delay(attempt: nat): nat {
    if attempt <= 1 then 1 else if attempt == 2 then 5 else 30
  }

  predicate HasStatus(deliveries: map<string, Delivery>, key: string, status: Status) {
    key in deliveries && deliveries[key].status == status
  }

  /** Whether the look-up lets the request through to the provider. */
  predicate Passes(deliveries: map<string, Delivery>, who: Process, key: string, now: int) {
    && !HasStatus(deliveries, key, Sent)
    && (who == Api && HasStatus(deliveries, key, FailedRetryable) && deliveries[key].nextRetry.At? ==>
          deliveries[key].nextRetry.second <= now)
  }

  function AttemptNumber(deliveries: map<string, Delivery>, who: Process, key: string): nat {
    if who == Api && key in deliveries then deliveries[key].attempts + 1 else 1
  }

  function StatusAfter(who: Process, attempt: nat, answer: Answer): Status {
    if answer == Delivered then Sent
    else if who == Api && (attempt >= 3 || (answer.Undelivered? && answer.status in PERMANENT)) then FailedPermanent
    else FailedRetryable
  }

  function RetryAfter(who: Process, attempt: nat, status: Status, now: int): Time {
    if who == Api && status == FailedRetryable then At(now + 60 * Delay(attempt)) else Never
  }

  /** record_delivery: an upsert that leaves recipient and message of an existing row alone. */
  function Recorded(deliveries: map<string, Delivery>, key: string, entry: Delivery): map<string, Delivery> {
    deliveries[key :=
      if key in deliveries
      then entry.(recipient := deliveries[key].recipient, message := deliveries[key].message)
      else entry]
  }

  // ------------------------------------------------------------------ state machine

  function FlightOf(s: Relay, who: Process): Flight { if who == Api then s.api else s.inbound }

  function WithFlight(s: Relay, who: Process, flight: Flight): Relay {
    if who == Api then s.(api := flight) else s.(inbound := flight)
  }

  /** The look-up. */
  function Begin(s: Relay, who: Process, key: string, recipient: string, message: string): Relay {
    if FlightOf(s, who).Idle? && Passes(s.deliveries, who, key, s.clock)
    then WithFlight(s, who, Flying(key, recipient, message, AttemptNumber(s.deliveries, who, key), s.clock))
    else s
  }

  function RecordOf(s: Relay, who: Process, flight: Flight, status: Status): Delivery
    requires flight.Flying?
  {
    Delivery(flight.recipient, flight.message, status, flight.attempt, s.clock,
             RetryAfter(who, flight.attempt, status, s.clock))
  }

  /** The provider's answer and the record. */
  function End(s: Relay, who: Process, finish: Finish): Relay {
    var flight := FlightOf(s, who);
    if flight.Idle? || (who == Inbound && !finish.Answered?) then s
    else
      var landed := WithFlight(s, who, Idle);
      match finish
      case Invalid => landed
      case Unconvertible =>
        landed.(deliveries := Recorded(s.deliveries, flight.key, RecordOf(s, who, flight, FailedPermanent)))
      case Answered(answer) =>
        var called := landed.(calls := s.calls + [Call(who, flight.key, flight.attempt, flight.started, s.clock, answer)]);
        if answer == Raised then called
        else called.(deliveries := Recorded(s.deliveries, flight.key,
                       RecordOf(s, who, flight, StatusAfter(who, flight.attempt, answer))))
  }

  datatype Action = BeginBy(who: Process, key: string, recipient: string, message: string) | EndBy(who: Process, finish: Finish)

  /** An action after some time: the clock never goes back. */
  datatype Event = Event(elapsed: nat, action: Action)

  function Act(s: Relay, action: Action): Relay {
    match action
    case BeginBy(who, key, recipient, message) => Begin(s, who, key, recipient, message)
    case EndBy(who, finish) => End(s, who, finish)
  }

  function Step(s: Relay, event: Event): Relay {
    Act(s.(clock := s.clock + event.elapsed), event.action)
  }

  function Run(events: seq<Event>): Relay {
    if events == [] then START else Step(Run(events[..|events| - 1]), events[|events| - 1])
  }

  // ------------------------------------------------------------------------ methods

  /** What a handler returns. */
  datatype Reply = Duplicate(row: Delivery) | Fresh(status: Status, attempts: nat, nextRetry: Time) | Error

  class DeliveryTable {
    var deliveries: map<string, Delivery>
    var calls: seq<Call>

    constructor ()
      ensures deliveries == map[] && calls == []
    {
      deliveries, calls := map[], [];
    }

    method RecordDelivery(key: string, entry: Delivery)
      modifies this`deliveries
      ensures deliveries == old(Recorded(deliveries, key, entry))
      ensures key in deliveries && deliveries[key].status == entry.status
      ensures old(key in deliveries) ==> deliveries[key].recipient == old(deliveries[key].recipient)
    {
      if key in deliveries {
        var row := deliveries[key];
        row := row.(status := entry.status, attempts := entry.attempts,
                    lastAttempt := entry.lastAttempt, nextRetry := entry.nextRetry);
        deliveries := deliveries[key := row];
      } else {
        deliveries := deliveries[key := entry];
      }
    }

    /** The state of the relay with this table and no request in flight. */
    ghost function Quiet(clock: int): Relay
      reads this
    {
      Relay(clock, deliveries, Idle, Idle, calls)
    }

    /** A request handled without the other process in between, in the state machine's terms. */
    ghost function Alone(who: Process, key: string, recipient: string, message: string,
                         now: int, later: int, finish: Finish): Relay
      reads this
    {
      var begun := Begin(Quiet(now), who, key, recipient, message);
      End(begun.(clock := later), who, finish)
    }

    /** The answer's record, shared by both handlers. */
    method Conclude(key: string, recipient: string, message: string, attempt: nat,
                    now: int, later: int, answer: Answer) returns (reply: Reply)
      modifies this
      ensures calls == old(calls) + [Call(Api, key, attempt, now, later, answer)]
      ensures answer == Raised ==> deliveries == old(deliveries) && reply == Error
      ensures answer != Raised ==>
                var status := StatusAfter(Api, attempt, answer);
                var nextRetry := RetryAfter(Api, attempt, status, later);
                && reply == Fresh(status, attempt, nextRetry)
                && deliveries == Recorded(old(deliveries), key,
                                          Delivery(recipient, message, status, attempt, later, nextRetry))
    {
      calls := calls + [Call(Api, key, attempt, now, later, answer)];
      if answer == Raised {
        return Error;
      }
      var permanent := answer.Undelivered? && answer.status in PERMANENT;
      var status := FailedRetryable;
      if answer == Delivered {
        status := Sent;
      } else if permanent || attempt >= 3 {
        status := FailedPermanent;
      }
      var nextRetry := Never;
      if status == FailedRetryable {
        nextRetry := At(later + 60 * Delay(attempt));
      }
      RecordDelivery(key, Delivery(recipient, message, status, attempt, later, nextRetry));
      reply := Fresh(status, attempt, nextRetry);
    }

    /** The shared gate of both handlers. */
    method Gate(key: string, now: int) returns (duplicate: bool, attempt: nat)
      ensures duplicate == !Passes(deliveries, Api, key, now)
      ensures attempt == AttemptNumber(deliveries, Api, key)
    {
      duplicate := false;
      attempt := 1;
      if key in deliveries {
        var row := deliveries[key];
        attempt := row.attempts + 1;
        if row.status == Sent {
          duplicate := true;
        } else if row.status == FailedRetryable && row.nextRetry.At? && row.nextRetry.second > now {
          duplicate := true;
        }
      }
    }

    /** POST /send: what it does to the table is what Begin and End do, one after the other. */
    method Send(key: string, recipient: string, message: string, now: int, later: int, answer: Answer)
      returns (reply: Reply)
      modifies this
      ensures Quiet(later) == old(Alone(Api, key, recipient, message, now, later, Answered(answer)))
      ensures reply.Duplicate? <==> !old(Passes(deliveries, Api, key, now))
      ensures reply.Duplicate? ==> key in deliveries && reply.row == deliveries[key]
      ensures reply.Fresh? ==> key in deliveries && deliveries[key].status == reply.status
    {
      var duplicate, attempt := Gate(key, now);
      if duplicate {
        return Duplicate(deliveries[key]);
      }
      reply := Conclude(key, recipient, message, attempt, now, later, answer);
    }

    /** POST /send-media: the media is prepared between the gate and the provider call. */
    method SendMedia(key: string, recipient: string, message: string, now: int, later: int, finish: Finish)
      returns (reply: Reply)
      modifies this
      ensures Quiet(later) == old(Alone(Api, key, recipient, message, now, later, finish))
      ensures reply.Duplicate? <==> !old(Passes(deliveries, Api, key, now))
      ensures !finish.Answered? ==> calls == old(calls) && !reply.Fresh?
    {
      var duplicate, attempt := Gate(key, now);
      if duplicate {
        return Duplicate(deliveries[key]);
      }
      match finish {
        case Invalid =>
          reply := Error;
        case Unconvertible =>
          RecordDelivery(key, Delivery(recipient, message, FailedPermanent, attempt, later, Never));
          reply := Error;
        case Answered(answer) =>
          reply := Conclude(key, recipient, message, attempt, now, later, answer);
      }
    }

    /** `_send_inbound_reply`: always attempt number 1, never a back-off. */
    method SendInboundReply(key: string, recipient: string, message: string, now: int, later: int, answer: Answer)
      returns (sent: bool)
      modifies this
      ensures Quiet(later) == old(Alone(Inbound, key, recipient, message, now, later, Answered(answer)))
      ensures sent <==> HasStatus(deliveries, key, Sent) && (old(HasStatus(deliveries, key, Sent)) || answer == Delivered)
    {
      if key in deliveries && deliveries[key].status == Sent {
        return true;
      }
      calls := calls + [Call(Inbound, key, 1, now, later, answer)];
      if answer == Raised {
        return false;
      }
      var status := if answer == Delivered then Sent else FailedRetryable;
      RecordDelivery(key, Delivery(recipient, message, status, 1, later, Never));
      sent := answer == Delivered;
    }
  }
}
