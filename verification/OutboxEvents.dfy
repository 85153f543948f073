/**
 The outbox record of one webhook delivery and its transitions. Times are in milliseconds. An attempt reads the clock
 several times, each time perhaps a little later; a creation and a test read it once, as `now`.
 */
module OutboxEvents {
  import opened Wrappers

  datatype Status = Pending | Delivered | Failed | Cancelled

  datatype Event = Event(eventId: string, occurredAt: int, name: string, payload: string)

  datatype Webhook = Webhook(id: string, assigneeId: string, secret: string, deliveryUrl: string, events: seq<string>)

  datatype OutboxEvent = OutboxEvent(
    id: nat,
    webhookId: string,
    assigneeId: string,
    webhookSecret: string,
    deliveryUrl: string,
    event: Event,
    status: Status,
    nextTryAt: Option<int>,
    tries: int,
    firstTryAt: Option<int>,
    lastTryAt: Option<int>,
    lastStatusCode: Option<int>,
    lastResponse: Option<string>,
    isTest: bool,
    createdAt: int,
    updatedAt: int)

  datatype ValidationError = EventNotSupported(webhookId: string, eventName: string) | CannotRetry(id: nat)

  const MAX_RETRIES := 7
  const MINUTE := 60000
  const HOUR := 60 * MINUTE
  // The six backoffs together.
  const SPAN := 44 * HOUR + 35 * MINUTE

  // `find` answers the name it found, so an empty name counts as not found.
  predicate Supports(webhook: Webhook, event: Event) {
    event.name in webhook.events && event.name != ""
  }

  function CreateOutboxEvent(webhook: Webhook, event: Event, isTest: bool, id: nat, now: int)
    : Result<OutboxEvent, ValidationError>
  {
    if !Supports(webhook, event) then Failure(EventNotSupported(webhook.id, event.name))
    else Success(OutboxEvent(id, webhook.id, webhook.assigneeId, webhook.secret, webhook.deliveryUrl, event,
                             Pending, Some(now), 0, None, None, None, None, isTest, now, now))
  }

  // The clock as an attempt's outcome reads it: for the next try, the first, the last, and the update.
  datatype Reads = Reads(next: int, first: int, last: int, updated: int)

  // The most time an attempt takes from its reading for the next try to those for the first and for the last.
  datatype Slack = Slack(toFirst: nat, toLast: nat)

  predicate Within(slack: Slack, more: Slack) {
    slack.toFirst <= more.toFirst && slack.toLast <= more.toLast
  }

  predicate Follow(start: int, at: Reads, slack: Slack) {
    && start <= at.next <= at.first <= at.last <= at.updated
    && at.first - at.next <= slack.toFirst && at.last - at.next <= slack.toLast
  }

  // A delivered record reads no clock for a next try.
  function OutboxEventDelivered(o: OutboxEvent, status: int, response: string, at: Reads): OutboxEvent {
    o.(tries := o.tries + 1, status := Delivered,
       firstTryAt := if o.firstTryAt.Some? then o.firstTryAt else Some(at.first), lastTryAt := Some(at.last),
       nextTryAt := None, lastStatusCode := Some(status), lastResponse := Some(response), updatedAt := at.updated)
  }

  function OutboxEventDeliveryFailed(o: OutboxEvent, status: int, response: string, at: Reads): OutboxEvent {
    var tries := o.tries + 1;
    var nextTryAt := GetNextTryAt(tries, at.next);
    o.(tries := tries, status := if nextTryAt.Some? then Failed else Cancelled,
       firstTryAt := if o.firstTryAt.Some? then o.firstTryAt else Some(at.first), lastTryAt := Some(at.last),
       nextTryAt := nextTryAt, lastStatusCode := Some(status), lastResponse := Some(response), updatedAt := at.updated)
  }

  predicate CanRetryOutboxEvent(o: OutboxEvent, now: int) {
    if o.status == Cancelled then false
    else if o.status == Delivered then false
    else if o.status == Pending then true
    else
      var reachedMaxTries := o.tries > MAX_RETRIES;
      var nextTryTimeHasPassed := o.nextTryAt.Some? && o.nextTryAt.value <= now;
      !reachedMaxTries && nextTryTimeHasPassed
  }

  function GetNextTryAt(tries: int, now: int): Option<int> {
    match tries
    case 0 => Some(now)
    case 1 => Some(now + MINUTE * 5)
    case 2 => Some(now + MINUTE * 30)
    case 3 => Some(now + HOUR * 2)
    case 4 => Some(now + HOUR * 6)
    case 5 => Some(now + HOUR * 12)
    case 6 => Some(now + HOUR * 24)
    case _ => None
  }

  // 200 and 201 are the only successes.
  function Outcome(o: OutboxEvent, status: int, response: string, at: Reads): OutboxEvent {
    if status == 200 || status == 201 then OutboxEventDelivered(o, status, response, at)
    else OutboxEventDeliveryFailed(o, status, response, at)
  }

  // ----- The invariant of one record -----

  // The shortest time from the first attempt to the `tries`-th: the backoffs in between.
  function Waited(tries: int): nat
    requires 1 <= tries <= 7
  {
    if tries == 1 then 0 else Waited(tries - 1) + GetNextTryAt(tries - 1, 0).value
  }

  // What a slow first attempt may take off the time between the tries: the second attempt never comes before its end.
  function Lost(slack: Slack): nat {
    if slack.toFirst < 5 * MINUTE then slack.toFirst else 5 * MINUTE
  }

  // The record of a delivery whose attempts each stayed within `slack`.
  ghost predicate Lawful(o: OutboxEvent, now: int, slack: Slack) {
    && 0 <= o.tries <= 7
    && (o.status == Pending <==> o.tries == 0)
    && (o.firstTryAt == None <==> o.tries == 0)
    && (o.lastTryAt == None <==> o.tries == 0)
    && (o.status == Failed ==> 1 <= o.tries <= 6)
    && (o.status == Cancelled ==> o.tries == 7)
    && (o.nextTryAt.Some? <==> o.status == Pending || o.status == Failed)
    && (1 <= o.tries ==>
         && o.firstTryAt.value + Waited(o.tries) <= o.lastTryAt.value + (if o.tries == 1 then 0 else Lost(slack))
         && o.lastTryAt.value <= now)
    && (o.status == Failed ==>
         && o.firstTryAt.value + Waited(o.tries + 1)
            <= o.nextTryAt.value + (if o.tries == 1 then slack.toFirst else Lost(slack))
         && GetNextTryAt(o.tries, o.lastTryAt.value - slack.toLast).value <= o.nextTryAt.value
         && o.nextTryAt.value <= GetNextTryAt(o.tries, o.lastTryAt.value).value)
  }

  lemma {:induction false} CreatedLawful(webhook: Webhook, event: Event, isTest: bool, id: nat, now: int)
    ensures var r := CreateOutboxEvent(webhook, event, isTest, id, now);
            && (r.Success? <==> event.name in webhook.events && event.name != "")
            && (r.Failure? ==> r.error.EventNotSupported? && r.error.webhookId == webhook.id && r.error.eventName == event.name)
            && (r.Success? ==>
                 && r.value.id == id && Lawful(r.value, now, Slack(0, 0)) && CanRetryOutboxEvent(r.value, now)
                 && r.value.webhookId == webhook.id && r.value.assigneeId == webhook.assigneeId
                 && r.value.webhookSecret == webhook.secret && r.value.deliveryUrl == webhook.deliveryUrl
                 && r.value.event == event && r.value.isTest == isTest && r.value.createdAt == now)
  {
  }

  /**
   An attempt allowed at `start` and answered later keeps the record lawful, adds one try, keeps the instant of the
   first try once it is set, and leaves the record no longer pending.
   */
  lemma {:induction false} AttemptLawful(o: OutboxEvent, start: int, slack: Slack, status: int, response: string,
                                         at: Reads)
    requires Lawful(o, start, slack) && CanRetryOutboxEvent(o, start) && Follow(start, at, slack)
    ensures var o' := Outcome(o, status, response, at);
            && Lawful(o', at.updated, slack) && o'.id == o.id && o'.tries == o.tries + 1 && o'.status != Pending
            && (o'.status == Delivered <==> status == 200 || status == 201)
            && (o.status == Pending || o.status == Failed) && 0 <= o.tries <= 6
            && (o.firstTryAt.Some? ==> o'.firstTryAt == o.firstTryAt)
  {
    hide Waited, GetNextTryAt;
    FirstWaits();
    if !(status == 200 || status == 201) {
      NextTries(o.tries + 1, at.next);
      NextTries(o.tries + 1, at.last);
      NextTries(o.tries + 1, at.last - slack.toLast);
    }
  }

  // A next try comes its backoff after the reading it is counted from, and the waits add up.
  lemma {:induction false} NextTries(tries: int, now: int)
    requires 1 <= tries <= 7
    ensures GetNextTryAt(tries, now).Some? <==> tries <= 6
    ensures tries <= 6 ==> GetNextTryAt(tries, now).value == now + (Waited(tries + 1) - Waited(tries))
    ensures tries <= 6 ==> Waited(tries) <= Waited(tries + 1)
  {
  }

  lemma {:induction false} FirstWaits()
    ensures Waited(1) == 0 && Waited(2) == 5 * MINUTE
  {
  }

  // What names a record, and what it delivers to whom.
  ghost predicate SameDelivery(o: OutboxEvent, o': OutboxEvent) {
    && o'.id == o.id && o'.webhookId == o.webhookId && o'.assigneeId == o.assigneeId
    && o'.webhookSecret == o.webhookSecret && o'.deliveryUrl == o.deliveryUrl && o'.event == o.event
    && o'.isTest == o.isTest && o'.createdAt == o.createdAt
  }

  /** Whatever the reply, it is remembered with its instant, and what is delivered to whom never changes. */
  lemma {:induction false} OutcomeRemembers(o: OutboxEvent, status: int, response: string, at: Reads)
    ensures var o' := Outcome(o, status, response, at);
            && SameDelivery(o, o')
            && o'.lastStatusCode == Some(status) && o'.lastResponse == Some(response)
            && o'.lastTryAt == Some(at.last) && o'.updatedAt == at.updated
            && o'.firstTryAt == (if o.firstTryAt == None then Some(at.first) else o.firstTryAt)
            && (o'.status == Delivered <==> status == 200 || status == 201)
            && o'.nextTryAt == (if o'.status == Delivered then None else GetNextTryAt(o.tries + 1, at.next))
  {
  }

  /** After so many failures the next try is due in 5 and 30 minutes, 2, 6, 12 and 24 hours, and never again. */
  lemma {:induction false} BackoffTable(now: int)
    ensures GetNextTryAt(0, now) == Some(now)
    ensures GetNextTryAt(1, now) == Some(now + 300000)
    ensures GetNextTryAt(2, now) == Some(now + 1800000)
    ensures GetNextTryAt(3, now) == Some(now + 7200000)
    ensures GetNextTryAt(4, now) == Some(now + 21600000)
    ensures GetNextTryAt(5, now) == Some(now + 43200000)
    ensures GetNextTryAt(6, now) == Some(now + 86400000)
    ensures forall tries: int :: 7 <= tries ==> GetNextTryAt(tries, now) == None
  {
  }

  /** There are six backoffs after a failure, each longer than the one before; a seventh failure has no next try. */
  lemma {:induction false} BackoffsGrow(tries: int, now: int)
    requires 1 <= tries
    ensures GetNextTryAt(tries, now).Some? <==> tries <= 6
    ensures tries <= 6 ==> now + 5 * MINUTE <= GetNextTryAt(tries, now).value <= now + 24 * HOUR
    ensures tries <= 5 ==> 2 * (GetNextTryAt(tries, now).value - now) <= GetNextTryAt(tries + 1, now).value - now
  {
  }

  /** Cancelled means seven tries over at least 44 hours and 35 minutes, less what a slow first attempt takes off. */
  lemma {:induction false} CancelledTook(o: OutboxEvent, now: int, slack: Slack)
    requires Lawful(o, now, slack) && o.status == Cancelled
    ensures o.lastTryAt.value - o.firstTryAt.value >= SPAN - Lost(slack)
  {
    SixBackoffs();
  }

  lemma {:induction false} SixBackoffs()
    ensures Waited(7) == SPAN
  {
    assert Waited(7) == Waited(6) + HOUR * 24;
    assert Waited(6) == Waited(5) + HOUR * 12;
    assert Waited(5) == Waited(4) + HOUR * 6;
    assert Waited(4) == Waited(3) + HOUR * 2;
    assert Waited(3) == Waited(2) + MINUTE * 30;
    assert Waited(2) == Waited(1) + MINUTE * 5;
  }

  /** A record may be tried while pending, or failed and due after seven tries at most; what is settled never. */
  lemma {:induction false} CanRetryIff(o: OutboxEvent, now: int)
    ensures CanRetryOutboxEvent(o, now) <==>
            o.status == Pending || (o.status == Failed && o.tries <= 7 && o.nextTryAt.Some? && o.nextTryAt.value <= now)
  {
  }

  /** On lawful records the test against the maximum of retries never decides. */
  lemma {:induction false} MaxRetriesNeverDecides(o: OutboxEvent, at: int, now: int, slack: Slack)
    requires Lawful(o, now, slack)
    ensures CanRetryOutboxEvent(o, at) <==>
            o.status == Pending || (o.status == Failed && o.nextTryAt.value <= at)
    ensures o.status == Failed && o.lastTryAt.value + GetNextTryAt(o.tries, 0).value <= at ==> CanRetryOutboxEvent(o, at)
    ensures o.status == Failed && CanRetryOutboxEvent(o, at) ==>
              o.lastTryAt.value + GetNextTryAt(o.tries, 0).value - slack.toLast <= at
  {
  }

  /** What may be retried may be retried at any later time, whatever the record holds. */
  lemma {:induction false} RetryableLater(o: OutboxEvent, now: int, later: int)
    requires CanRetryOutboxEvent(o, now) && now <= later
    ensures CanRetryOutboxEvent(o, later)
  {
  }
}
