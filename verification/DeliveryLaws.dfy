/** What the delivery table keeps over every interleaving of the two processes. */
module DeliveryLaws {
  import opened RelayDelivery

  /** How many provider calls for a key succeeded. */
  function Successes(calls: seq<Call>, key: string): nat {
    if calls == [] then 0
    else
      var last := calls[|calls| - 1];
      Successes(calls[..|calls| - 1], key) + if last.key == key && last.answer == Delivered then 1 else 0
  }

  predicate FliesOn(flight: Flight, key: string) { flight.Flying? && flight.key == key }

  /** Both processes are between look-up and record with the same key. */
  predicate Crossed(s: Relay, key: string) { FliesOn(s.api, key) && FliesOn(s.inbound, key) }

  predicate NeverCrossed(events: seq<Event>, key: string) {
    forall i :: 0 <= i <= |events| ==> !Crossed(Run(events[..i]), key)
  }

  lemma NeverCrossedBefore(events: seq<Event>, key: string)
    requires events != [] && NeverCrossed(events, key)
    ensures NeverCrossed(events[..|events| - 1], key)
    ensures !Crossed(Run(events), key)
  {
    hide Run, Crossed;
    var init := events[..|events| - 1];
    forall i | 0 <= i <= |init|
      ensures !Crossed(Run(init[..i]), key)
    {
      assert init[..i] == events[..i];
    }
    assert events[..|events|] == events;
  }

  // ---------------------------------------------------------------- at most one success

  /** A key succeeds at most once, a success is on record, and nobody retries a sent key. */
  predicate SentOnce(s: Relay, key: string) {
    && Successes(s.calls, key) <= 1
    && (Successes(s.calls, key) == 1 <==> HasStatus(s.deliveries, key, Sent))
    && (HasStatus(s.deliveries, key, Sent) ==> !FliesOn(s.api, key) && !FliesOn(s.inbound, key))
  }

  lemma SuccessesSnoc(calls: seq<Call>, call: Call, key: string)
    ensures Successes(calls + [call], key) ==
              Successes(calls, key) + if call.key == key && call.answer == Delivered then 1 else 0
  {
    assert (calls + [call])[..|calls|] == calls;
  }

  lemma StepKeepsSentOnce(s: Relay, event: Event, key: string)
    requires SentOnce(s, key) && !Crossed(s, key) && !Crossed(Step(s, event), key)
    ensures SentOnce(Step(s, event), key)
    ensures HasStatus(s.deliveries, key, Sent) ==> HasStatus(Step(s, event).deliveries, key, Sent)
  {
    hide Successes, RetryAfter;
    match event.action
    case BeginBy(_, _, _, _) =>
    case EndBy(who, finish) =>
      var flight := FlightOf(s, who);
      if flight.Flying? && finish.Answered? {
        SuccessesSnoc(s.calls,
                      Call(who, flight.key, flight.attempt, flight.started, s.clock + event.elapsed, finish.answer), key);
      }
  }

  /** As long as the two processes do not handle a key at the same time, at most one provider
      call for it ever succeeds, whatever the provider answers and however they interleave. */
  lemma {:induction false} AtMostOneSuccess(events: seq<Event>, key: string)
    requires NeverCrossed(events, key)
    ensures SentOnce(Run(events), key)
  {
    hide Successes, Step, Crossed;
    if events == [] {
      NothingSentAtStart(key);
    } else {
      var init := events[..|events| - 1];
      NeverCrossedBefore(events, key);
      AtMostOneSuccess(init, key);
      assert init[..|init|] == init;
      StepKeepsSentOnce(Run(init), events[|events| - 1], key);
    }
  }

  lemma NothingSentAtStart(key: string)
    ensures SentOnce(START, key)
  {
  }

  /** "sent" is absorbing. */
  lemma {:induction false} SentIsAbsorbing(events: seq<Event>, k: nat, key: string)
    requires NeverCrossed(events, key) && k <= |events|
    requires HasStatus(Run(events[..k]).deliveries, key, Sent)
    ensures HasStatus(Run(events).deliveries, key, Sent)
    decreases |events|
  {
    hide Step, Crossed, SentOnce;
    if k < |events| {
      var init := events[..|events| - 1];
      assert init[..k] == events[..k] && init[..|init|] == init;
      NeverCrossedBefore(events, key);
      SentIsAbsorbing(init, k, key);
      AtMostOneSuccess(init, key);
      StepKeepsSentOnce(Run(init), events[|events| - 1], key);
    } else {
      assert events[..k] == events;
    }
  }

  /** The hypothesis is exact: from a state that has sent the key at most once, finishing both
      flights can send it twice if and only if both are for that key. */
  lemma SendsTwiceIffCrossed(s: Relay, key: string)
    requires SentOnce(s, key)
    ensures var both := End(End(s, Api, Answered(Delivered)), Inbound, Answered(Delivered));
            Successes(both.calls, key) > 1 <==> Crossed(s, key)
  {
    hide Successes;
    var middle := End(s, Api, Answered(Delivered));
    if s.api.Flying? {
      SuccessesSnoc(s.calls, Call(Api, s.api.key, s.api.attempt, s.api.started, s.clock, Delivered), key);
    }
    if s.inbound.Flying? {
      SuccessesSnoc(
        middle.calls,
        Call(Inbound, s.inbound.key, s.inbound.attempt, s.inbound.started, s.clock, Delivered), key);
    }
  }

  /** A crossed reply that fails overwrites "sent". */
  lemma CrossedReplyLosesSent(s: Relay, key: string)
    requires Crossed(s, key)
    ensures var sent := End(s, Api, Answered(Delivered));
            && HasStatus(sent.deliveries, key, Sent)
            && HasStatus(End(sent, Inbound, Answered(Undelivered("failed"))).deliveries, key, FailedRetryable)
  {
  }

  /** A crossing that an actual run reaches. */
  lemma CrossingIsReachable(key: string)
    ensures Crossed(Run([Event(0, BeginBy(Api, key, "", "")), Event(0, BeginBy(Inbound, key, "", ""))]), key)
  {
    var a, b := Event(0, BeginBy(Api, key, "", "")), Event(0, BeginBy(Inbound, key, "", ""));
    assert [a, b][..1] == [a] && [a][..0] == [];
    assert Run([a]) == Step(START, a);
  }

  // -------------------------------------------------------------------------- retries

  /** A provider call of /send or /send-media that left a retryable row. */
  predicate Retryable(call: Call) {
    call.answer != Raised && StatusAfter(Api, call.attempt, call.answer) == FailedRetryable
  }

  function Due(call: Call): int { call.ended + 60 * Delay(call.attempt) }

  /** A retryable row has used one or two attempts and waits one or five minutes. */
  predicate RetryableRowWaits(s: Relay, key: string) {
    HasStatus(s.deliveries, key, FailedRetryable) ==>
      var row := s.deliveries[key];
      1 <= row.attempts <= 2 && row.nextRetry == At(row.lastAttempt + if row.attempts == 1 then 60 else 300)
  }

  predicate WaitingFor(s: Relay, call: Call) {
    && HasStatus(s.deliveries, call.key, FailedRetryable)
    && s.deliveries[call.key].nextRetry == At(Due(call))
    && !FliesOn(s.api, call.key)
  }

  /** Every retryable failure is waiting, or its time has come; nothing since then started early. */
  predicate BackOffKept(s: Relay, key: string) {
    && RetryableRowWaits(s, key)
    && !FliesOn(s.inbound, key)
    && (forall i :: 0 <= i < |s.calls| && s.calls[i].key == key && Retryable(s.calls[i]) ==>
          WaitingFor(s, s.calls[i]) || (Due(s.calls[i]) <= s.clock && (FliesOn(s.api, key) ==> Due(s.calls[i]) <= s.api.started)))
    && (forall i, j :: 0 <= i < j < |s.calls| && s.calls[i].key == key && s.calls[j].key == key && Retryable(s.calls[i]) ==>
          Due(s.calls[i]) <= s.calls[j].started)
    && (FliesOn(s.api, key) ==> s.api.started <= s.clock && 1 <= s.api.attempt)
  }

  /** The inbound thread leaves the key alone. */
  predicate ApiOnly(events: seq<Event>, key: string) {
    forall e :: e in events && e.action.BeginBy? && e.action.who == Inbound ==> e.action.key != key
  }

  lemma TickKeepsBackOff(s: Relay, elapsed: nat, key: string)
    requires BackOffKept(s, key)
    ensures BackOffKept(s.(clock := s.clock + elapsed), key)
  {
  }

  lemma BeginKeepsBackOff(s: Relay, who: Process, k: string, recipient: string, message: string, key: string)
    requires BackOffKept(s, key) && (who == Inbound ==> k != key)
    ensures BackOffKept(Begin(s, who, k, recipient, message), key)
  {
    hide Retryable, Due;
  }

  /** The end of a request for another key, or of no request. */
  lemma OtherEndKeepsBackOff(s: Relay, who: Process, finish: Finish, key: string)
    requires BackOffKept(s, key) && !(who == Api && FliesOn(s.api, key))
    ensures BackOffKept(End(s, who, finish), key)
  {
    hide Retryable, Due, StatusAfter, RetryAfter;
  }

  /** What a retryable answer leaves in the table. */
  lemma RetryableAnswer(attempt: nat, answer: Answer, now: int)
    requires attempt >= 1 && answer != Raised
    ensures var status := StatusAfter(Api, attempt, answer);
            status == FailedRetryable ==>
              && attempt <= 2
              && RetryAfter(Api, attempt, status, now) == At(now + if attempt == 1 then 60 else 300)
              && RetryAfter(Api, attempt, status, now) == At(now + 60 * Delay(attempt))
  {
  }

  lemma EndKeepsBackOff(s: Relay, finish: Finish, key: string)
    requires BackOffKept(s, key) && FliesOn(s.api, key)
    ensures BackOffKept(End(s, Api, finish), key)
  {
    if finish.Answered? {
      if finish.answer != Raised {
        RetryableAnswer(s.api.attempt, finish.answer, s.clock);
      }
      hide StatusAfter, RetryAfter, Delay;
      var c := End(s, Api, finish);
      assert c.calls == s.calls + [Call(Api, key, s.api.attempt, s.api.started, s.clock, finish.answer)];
    }
  }

  /** For a key only /send and /send-media use: a retryable row has at most two attempts behind
      it, and after a retryable failure no provider call starts before one minute (first attempt)
      or five minutes (second) have passed. */
  lemma {:induction false} BackOffHolds(events: seq<Event>, key: string)
    requires ApiOnly(events, key)
    ensures BackOffKept(Run(events), key)
  {
    hide BackOffKept, Begin, End;
    if events == [] {
      NothingWaitsAtStart(key);
    } else {
      var init, last := events[..|events| - 1], events[|events| - 1];
      assert events == init + [last] && last in events;
      BackOffHolds(init, key);
      var s := Run(init);
      TickKeepsBackOff(s, last.elapsed, key);
      var ticked := s.(clock := s.clock + last.elapsed);
      match last.action
      case BeginBy(who, k, recipient, message) => BeginKeepsBackOff(ticked, who, k, recipient, message, key);
      case EndBy(who, finish) =>
        if who == Api && FliesOn(ticked.api, key) {
          EndKeepsBackOff(ticked, finish, key);
        } else {
          OtherEndKeepsBackOff(ticked, who, finish, key);
        }
    }
  }

  lemma NothingWaitsAtStart(key: string)
    ensures BackOffKept(START, key)
  {
  }

  /** "failed_permanent" is not final: after three failures, and whenever else, the next /send
      goes through to the provider at once. */
  lemma PermanentFailureIsTriedAgain(s: Relay, key: string, recipient: string, message: string)
    requires HasStatus(s.deliveries, key, FailedPermanent) && s.api.Idle?
    ensures var begun := Begin(s, Api, key, recipient, message);
            && FliesOn(begun.api, key) && begun.api.started == s.clock
            && HasStatus(End(begun, Api, Answered(Delivered)).deliveries, key, Sent)
  {
  }
}
