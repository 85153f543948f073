/**
 Delivery of outbox records: creation, first sends and the retry sweep over the repository. The oracle gives the reply
 to each POST in turn. Sends and sweeps do not overlap; a reply may take any time.
 */
module OutboxDelivery {
  import opened OrderedMaps
  import opened OutboxEvents
  import opened Sums
  import opened Wrappers

  // A reply, and how long it and then each reading of the clock took.
  datatype Reply = Reply(status: int, response: string, latency: nat, toFirst: nat, toLast: nat, toUpdated: nat)

  type Oracle = nat -> Reply

  // What is POSTed, for which record and when. The signature is that of `secret` over `event`.
  datatype Post = Post(record: nat, at: int, url: string, webhookId: string, secret: string, trigger: string, event: Event)

  datatype State = State(now: int, ids: nat, records: OrderedMap<nat, OutboxEvent>, posts: seq<Post>)

  datatype Step =
    | Create(webhook: Webhook, event: Event, isTest: bool)
    | Attempt(id: nat)
    | Elapse(ms: nat)

  const Init := State(0, 0, Empty(), [])

  function PostOf(outbox: OutboxEvent, now: int): Post {
    Post(outbox.id, now, outbox.deliveryUrl, outbox.webhookId, outbox.webhookSecret, outbox.event.name, outbox.event)
  }

  // The clock as the outcome of that reply reads it.
  function ReadsOf(reply: Reply, now: int): Reads {
    var next := now + reply.latency;
    var last := next + reply.toFirst + reply.toLast;
    Reads(next, next + reply.toFirst, last, last + reply.toUpdated)
  }

  // What the first `n` outcomes stayed within.
  function SlackOf(o: Oracle, n: nat): Slack {
    if n == 0 then Slack(0, 0)
    else
      var earlier, toFirst, toLast := SlackOf(o, n - 1), o(n - 1).toFirst, o(n - 1).toFirst + o(n - 1).toLast;
      Slack(if earlier.toFirst < toFirst then toFirst else earlier.toFirst,
            if earlier.toLast < toLast then toLast else earlier.toLast)
  }

  // One POST for a record the caller holds, and the update that follows it.
  function Deliver(o: Oracle, s: State, outbox: OutboxEvent): State {
    var reply := o(|s.posts|);
    var at := ReadsOf(reply, s.now);
    var record := Outcome(outbox, reply.status, reply.response, at);
    State(at.updated, s.ids, s.records.Set(record.id, record), s.posts + [PostOf(outbox, s.now)])
  }

  function Next(o: Oracle, s: State, step: Step): State {
    match step
    case Create(webhook, event, isTest) =>
      (match CreateOutboxEvent(webhook, event, isTest, s.ids, s.now)
       case Success(record) => s.(ids := s.ids + 1, records := s.records.Set(record.id, record))
       case Failure(_) => s)
    case Attempt(id) =>
      if id in s.records.at && CanRetryOutboxEvent(s.records.at[id], s.now)
      then Deliver(o, s, s.records.at[id]) else s
    case Elapse(ms) => s.(now := s.now + ms)
  }

  function Run(o: Oracle, s: State, steps: seq<Step>): State
    decreases |steps|
  {
    if steps == [] then s else Run(o, Next(o, s, steps[0]), steps[1..])
  }

  function CountOf(posts: seq<Post>, id: nat): nat {
    if posts == [] then 0
    else CountOf(posts[..|posts| - 1], id) + if posts[|posts| - 1].record == id then 1 else 0
  }

  // ----- Whole runs -----

  /** Every record is lawful and has been posted once for each of its tries. */
  ghost predicate Accounted(o: Oracle, s: State) {
    && s.records.Valid()
    && (forall id :: id in s.records.at ==>
          && id < s.ids && s.records.at[id].id == id
          && Lawful(s.records.at[id], s.now, SlackOf(o, |s.posts|))
          && CountOf(s.posts, id) == s.records.at[id].tries)
    && (forall id: nat :: id !in s.records.at ==> CountOf(s.posts, id) == 0)
  }

  ghost predicate Settled(r: OutboxEvent) {
    r.status == Delivered || r.status == Cancelled
  }

  // What a record never takes back.
  ghost predicate Continues(r: OutboxEvent, r': OutboxEvent) {
    && (Settled(r) ==> r' == r)
    && (r.firstTryAt.Some? ==> r'.firstTryAt == r.firstTryAt)
    && r.tries <= r'.tries
  }

  ghost predicate AllContinue(s: State, s': State) {
    forall id :: id in s.records.at ==> id in s'.records.at && Continues(s.records.at[id], s'.records.at[id])
  }

  lemma {:induction false} ContinueOn(s: State, s1: State, s2: State)
    requires AllContinue(s, s1) && AllContinue(s1, s2)
    ensures AllContinue(s, s2)
  {
  }

  lemma {:induction false} CountPush(posts: seq<Post>, last: Post, id: nat)
    ensures CountOf(posts + [last], id) == CountOf(posts, id) + if last.record == id then 1 else 0
  {
    assert (posts + [last])[..|posts|] == posts;
  }

  // One record of an accounted state.
  ghost predicate RecordAccounted(o: Oracle, s: State, id: nat) {
    if id in s.records.at then
      && id < s.ids && s.records.at[id].id == id && Lawful(s.records.at[id], s.now, SlackOf(o, |s.posts|))
      && CountOf(s.posts, id) == s.records.at[id].tries
    else CountOf(s.posts, id) == 0
  }

  lemma {:induction false} LawfulLater(r: OutboxEvent, now: int, later: int, slack: Slack, more: Slack)
    requires Lawful(r, now, slack) && now <= later && Within(slack, more)
    ensures Lawful(r, later, more)
  {
  }

  lemma {:induction false} SlackGrows(o: Oracle, n: nat, now: int)
    ensures Within(SlackOf(o, n), SlackOf(o, n + 1)) && Follow(now, ReadsOf(o(n), now), SlackOf(o, n + 1))
  {
  }

  lemma {:induction false} DeliverAccounted(o: Oracle, s: State, id: nat, other: nat)
    requires Accounted(o, s) && id in s.records.at && CanRetryOutboxEvent(s.records.at[id], s.now)
    ensures var s' := Deliver(o, s, s.records.at[id]);
            && RecordAccounted(o, s', other)
            && (other in s.records.at ==>
                 other in s'.records.at && Continues(s.records.at[other], s'.records.at[other]))
  {
    hide Lawful, CountOf, CanRetryOutboxEvent, Outcome;
    var reply, record := o(|s.posts|), s.records.at[id];
    var at, slack, more := ReadsOf(reply, s.now), SlackOf(o, |s.posts|), SlackOf(o, |s.posts| + 1);
    SlackGrows(o, |s.posts|, s.now);
    CountPush(s.posts, PostOf(record, s.now), other);
    assert record.id == id;
    LawfulLater(record, s.now, s.now, slack, more);
    AttemptLawful(record, s.now, more, reply.status, reply.response, at);
    if other != id && other in s.records.at {
      LawfulLater(s.records.at[other], s.now, at.updated, slack, more);
    }
  }

  lemma {:induction false} CreateAccounted(o: Oracle, s: State, webhook: Webhook, event: Event, isTest: bool,
                                           other: nat)
    requires Accounted(o, s)
    ensures var s' := Next(o, s, Create(webhook, event, isTest));
            && RecordAccounted(o, s', other)
            && (other in s.records.at ==>
                 other in s'.records.at && Continues(s.records.at[other], s'.records.at[other]))
  {
    CreatedLawful(webhook, event, isTest, s.ids, s.now);
    var created := CreateOutboxEvent(webhook, event, isTest, s.ids, s.now);
    if created.Success? {
      LawfulLater(created.value, s.now, s.now, Slack(0, 0), SlackOf(o, |s.posts|));
    }
  }

  lemma {:induction false} StepRecord(o: Oracle, s: State, step: Step, other: nat)
    requires Accounted(o, s)
    ensures var s' := Next(o, s, step);
            && RecordAccounted(o, s', other)
            && (other in s.records.at ==>
                 other in s'.records.at && Continues(s.records.at[other], s'.records.at[other]))
  {
    hide Lawful, CountOf, CanRetryOutboxEvent, Outcome, CreateOutboxEvent, Deliver;
    match step
    case Create(webhook, event, isTest) => CreateAccounted(o, s, webhook, event, isTest, other);
    case Elapse(ms) =>
      if other in s.records.at {
        LawfulLater(s.records.at[other], s.now, s.now + ms, SlackOf(o, |s.posts|), SlackOf(o, |s.posts|));
      }
    case Attempt(id) =>
      if id in s.records.at && CanRetryOutboxEvent(s.records.at[id], s.now) {
        DeliverAccounted(o, s, id, other);
      }
  }

  lemma {:induction false} StepValid(o: Oracle, s: State, step: Step)
    requires s.records.Valid()
    ensures Next(o, s, step).records.Valid()
  {
    hide CanRetryOutboxEvent, Outcome, CreateOutboxEvent;
  }

  lemma {:induction false} StepAccounted(o: Oracle, s: State, step: Step)
    requires Accounted(o, s)
    ensures Accounted(o, Next(o, s, step)) && AllContinue(s, Next(o, s, step))
  {
    hide Next, Lawful, CountOf, Continues;
    StepValid(o, s, step);
    var s' := Next(o, s, step);
    forall other: nat
      ensures RecordAccounted(o, s', other)
      ensures other in s.records.at ==>
                other in s'.records.at && Continues(s.records.at[other], s'.records.at[other])
    {
      StepRecord(o, s, step, other);
    }
  }

  /** In every run the records stay accounted for; settled records, and the instant of a first try, never change. */
  lemma {:induction false} RunAccounted(o: Oracle, s: State, steps: seq<Step>)
    requires Accounted(o, s)
    ensures Accounted(o, Run(o, s, steps)) && AllContinue(s, Run(o, s, steps))
    decreases |steps|
  {
    if steps != [] {
      hide Next, Accounted, AllContinue;
      StepAccounted(o, s, steps[0]);
      RunAccounted(o, Next(o, s, steps[0]), steps[1..]);
      ContinueOn(s, Next(o, s, steps[0]), Run(o, s, steps));
    }
  }

  lemma {:induction false} InitAccounted(o: Oracle)
    ensures Accounted(o, Init)
  {
  }

  // Every POST went where the record it was for still says, under its webhook's id and signed with its secret.
  ghost predicate PostsAddressed(s: State) {
    forall i :: 0 <= i < |s.posts| ==>
      s.posts[i].record in s.records.at && Addressed(s.posts[i], s.records.at[s.posts[i].record])
  }

  lemma {:induction false} StepAddressed(o: Oracle, s: State, step: Step)
    requires Accounted(o, s) && PostsAddressed(s)
    ensures PostsAddressed(Next(o, s, step))
  {
    hide Lawful, CountOf, CanRetryOutboxEvent, Outcome, CreateOutboxEvent, SlackOf;
    match step
    case Create(webhook, event, isTest) => CreatedLawful(webhook, event, isTest, s.ids, s.now);
    case Elapse(ms) =>
    case Attempt(id) =>
      if id in s.records.at {
        var reply := o(|s.posts|);
        OutcomeRemembers(s.records.at[id], reply.status, reply.response, ReadsOf(reply, s.now));
      }
  }

  lemma {:induction false} RunAddressed(o: Oracle, s: State, steps: seq<Step>)
    requires Accounted(o, s) && PostsAddressed(s)
    ensures PostsAddressed(Run(o, s, steps))
    decreases |steps|
  {
    if steps != [] {
      hide Next, Accounted, PostsAddressed, AllContinue;
      StepAddressed(o, s, steps[0]);
      StepAccounted(o, s, steps[0]);
      RunAddressed(o, Next(o, s, steps[0]), steps[1..]);
    }
  }

  /**
   In every run each POST for a record went to its delivery URL, under its webhook's id, with its event, and was signed
   with its webhook's secret.
   */
  lemma {:induction false} EveryPostAddressed(o: Oracle, steps: seq<Step>, i: nat)
    requires i < |Run(o, Init, steps).posts|
    ensures var s := Run(o, Init, steps);
            var post := s.posts[i];
            && post.record in s.records.at
            && var r := s.records.at[post.record];
               && post.url == r.deliveryUrl && post.webhookId == r.webhookId && post.secret == r.webhookSecret
               && post.event == r.event && post.trigger == r.event.name
  {
    hide Run;
    InitAccounted(o);
    RunAddressed(o, Init, steps);
  }

  // ----- When it is posted -----

  // The times of the POSTs for one record, in order.
  function TimesOf(posts: seq<Post>, id: nat): seq<int> {
    if posts == [] then []
    else
      var last := posts[|posts| - 1];
      TimesOf(posts[..|posts| - 1], id) + if last.record == id then [last.at] else []
  }

  // The least time from a record's first POST to its second, from that to its third, and so on.
  const BACKOFFS: seq<nat> := [5 * MINUTE, 30 * MINUTE, 2 * HOUR, 6 * HOUR, 12 * HOUR, 24 * HOUR]

  // The POSTs of a record are that far apart, and its next one will be.
  ghost predicate SpacedOut(times: seq<int>, r: OutboxEvent) {
    && |times| == r.tries <= 7
    && (forall k :: 0 <= k < |times| - 1 && k < 6 ==> times[k] + BACKOFFS[k] <= times[k + 1])
    && (r.status == Failed ==>
         && 1 <= r.tries <= 6 && r.nextTryAt.Some?
         && times[r.tries - 1] + BACKOFFS[r.tries - 1] <= r.nextTryAt.value)
  }

  ghost predicate AllSpacedOut(s: State) {
    forall id :: id in s.records.at ==> SpacedOut(TimesOf(s.posts, id), s.records.at[id])
  }

  lemma {:induction false} TimesPush(posts: seq<Post>, last: Post, id: nat)
    ensures TimesOf(posts + [last], id) == TimesOf(posts, id) + if last.record == id then [last.at] else []
  {
    assert (posts + [last])[..|posts|] == posts;
  }

  lemma {:induction false} NoTimes(posts: seq<Post>, id: nat)
    ensures |TimesOf(posts, id)| == CountOf(posts, id)
  {
    if posts != [] {
      NoTimes(posts[..|posts| - 1], id);
    }
  }

  lemma {:induction false} AttemptSpaced(times: seq<int>, r: OutboxEvent, now: int, status: int, response: string, at: Reads)
    requires SpacedOut(times, r) && CanRetryOutboxEvent(r, now) && (r.status == Pending ==> r.tries == 0)
    requires now <= at.next && r.tries <= 6
    ensures SpacedOut(times + [now], Outcome(r, status, response, at))
  {
    BackoffTable(at.next);
    assert BACKOFFS == [5 * MINUTE, 30 * MINUTE, 2 * HOUR, 6 * HOUR, 12 * HOUR, 24 * HOUR];
  }

  lemma {:induction false} NewSpaced(webhook: Webhook, event: Event, isTest: bool, id: nat, now: int)
    ensures var r := CreateOutboxEvent(webhook, event, isTest, id, now);
            r.Success? ==> r.value.id == id && SpacedOut([], r.value)
  {
  }

  lemma {:induction false} CreateSpaced(o: Oracle, s: State, webhook: Webhook, event: Event, isTest: bool)
    requires Accounted(o, s) && AllSpacedOut(s)
    ensures AllSpacedOut(Next(o, s, Create(webhook, event, isTest)))
  {
    hide Lawful, CountOf, CreateOutboxEvent, SlackOf, TimesOf, SpacedOut;
    assert s.ids !in s.records.at;
    NewSpaced(webhook, event, isTest, s.ids, s.now);
    NoTimes(s.posts, s.ids);
  }

  lemma {:induction false} DeliverSpaced(o: Oracle, s: State, id: nat, other: nat)
    requires Accounted(o, s) && AllSpacedOut(s)
    requires id in s.records.at && CanRetryOutboxEvent(s.records.at[id], s.now) && other in s.records.at
    ensures var s' := Deliver(o, s, s.records.at[id]);
            other in s'.records.at && SpacedOut(TimesOf(s'.posts, other), s'.records.at[other])
  {
    hide CountOf, Outcome, SlackOf, TimesOf, SpacedOut, Lawful, CanRetryOutboxEvent;
    var r, reply := s.records.at[id], o(|s.posts|);
    var at := ReadsOf(reply, s.now);
    TimesPush(s.posts, PostOf(r, s.now), other);
    OutcomeRemembers(r, reply.status, reply.response, at);
    assert SpacedOut(TimesOf(s.posts, other), s.records.at[other]);
    if other == id {
      MayStillTry(r, s.now, SlackOf(o, |s.posts|));
      AttemptSpaced(TimesOf(s.posts, id), r, s.now, reply.status, reply.response, at);
    } else {
      assert TimesOf(s.posts, other) + [] == TimesOf(s.posts, other);
    }
  }

  lemma {:induction false} MayStillTry(r: OutboxEvent, now: int, slack: Slack)
    requires Lawful(r, now, slack) && CanRetryOutboxEvent(r, now)
    ensures r.tries <= 6 && (r.status == Pending ==> r.tries == 0)
  {
  }

  lemma {:induction false} StepSpaced(o: Oracle, s: State, step: Step)
    requires Accounted(o, s) && AllSpacedOut(s)
    ensures AllSpacedOut(Next(o, s, step))
  {
    hide Lawful, CountOf, CanRetryOutboxEvent, Outcome, CreateOutboxEvent, SlackOf, TimesOf, SpacedOut;
    match step
    case Create(webhook, event, isTest) => CreateSpaced(o, s, webhook, event, isTest);
    case Elapse(ms) =>
    case Attempt(id) =>
      if id in s.records.at && CanRetryOutboxEvent(s.records.at[id], s.now) {
        var reply := o(|s.posts|);
        OutcomeRemembers(s.records.at[id], reply.status, reply.response, ReadsOf(reply, s.now));
        forall other | other in s.records.at
          ensures SpacedOut(TimesOf(Next(o, s, step).posts, other), Next(o, s, step).records.at[other])
        {
          DeliverSpaced(o, s, id, other);
        }
      }
  }

  lemma {:induction false} RunSpaced(o: Oracle, s: State, steps: seq<Step>)
    requires Accounted(o, s) && AllSpacedOut(s)
    ensures AllSpacedOut(Run(o, s, steps))
    decreases |steps|
  {
    if steps != [] {
      hide Next, Accounted, AllSpacedOut, AllContinue;
      StepSpaced(o, s, steps[0]);
      StepAccounted(o, s, steps[0]);
      RunSpaced(o, Next(o, s, steps[0]), steps[1..]);
    }
  }

  /** In every run, however slow the clock, the POSTs for a record are 5 and 30 minutes, 2, 6, 12 and 24 hours apart or more. */
  lemma {:induction false} PostsSpaced(o: Oracle, steps: seq<Step>, id: nat, k: nat)
    requires k + 1 < |TimesOf(Run(o, Init, steps).posts, id)|
    ensures k < 6
    ensures var times := TimesOf(Run(o, Init, steps).posts, id);
            times[k + 1] - times[k] >= [5 * MINUTE, 30 * MINUTE, 2 * HOUR, 6 * HOUR, 12 * HOUR, 24 * HOUR][k]
  {
    hide Run, TimesOf;
    var s := Run(o, Init, steps);
    InitAccounted(o);
    RunAccounted(o, Init, steps);
    RunSpaced(o, Init, steps);
    NoTimes(s.posts, id);
    assert id in s.records.at;
    assert SpacedOut(TimesOf(s.posts, id), s.records.at[id]);
    assert BACKOFFS == [5 * MINUTE, 30 * MINUTE, 2 * HOUR, 6 * HOUR, 12 * HOUR, 24 * HOUR];
  }

  /** However sweeps, sends and replies are ordered, no record is posted more than seven times. */
  lemma {:induction false} AtMostSevenPosts(o: Oracle, steps: seq<Step>, id: nat)
    ensures CountOf(Run(o, Init, steps).posts, id) <= 7
  {
    InitAccounted(o);
    RunAccounted(o, Init, steps);
  }

  /** A cancelled record was posted exactly seven times, over 44 hours and 35 minutes, less what a slow attempt takes off. */
  lemma {:induction false} CancelledRecord(o: Oracle, steps: seq<Step>, id: nat)
    requires id in Run(o, Init, steps).records.at && Run(o, Init, steps).records.at[id].status == Cancelled
    ensures var s := Run(o, Init, steps);
            var r := s.records.at[id];
            && CountOf(s.posts, id) == 7
            && r.firstTryAt.Some? && r.lastTryAt.Some?
            && r.lastTryAt.value - r.firstTryAt.value >= SPAN - Lost(SlackOf(o, |s.posts|))
  {
    InitAccounted(o);
    RunAccounted(o, Init, steps);
    CancelledTook(Run(o, Init, steps).records.at[id], Run(o, Init, steps).now, SlackOf(o, |Run(o, Init, steps).posts|));
  }

  // ----- How slow a clock the span survives -----

  // No attempt takes longer from its reading for the next try to that for the first.
  ghost predicate SlowBy(o: Oracle, gap: nat) {
    forall n: nat :: o(n).toFirst <= gap
  }

  // That the record, once cancelled, was tried over the span, less `lost`.
  ghost predicate KeepsSpan(o: Oracle, steps: seq<Step>, id: nat, lost: nat) {
    var records := Run(o, Init, steps).records.at;
    id in records && records[id].status == Cancelled ==>
      && records[id].firstTryAt.Some? && records[id].lastTryAt.Some?
      && records[id].lastTryAt.value - records[id].firstTryAt.value >= SPAN - lost
  }

  ghost predicate SafeAfter(gap: nat, lost: nat) {
    forall o: Oracle, steps: seq<Step>, id: nat :: SlowBy(o, gap) ==> KeepsSpan(o, steps, id, lost)
  }

  lemma {:induction false} SlackWithin(o: Oracle, n: nat, gap: nat)
    requires SlowBy(o, gap)
    ensures SlackOf(o, n).toFirst <= gap
    decreases n
  {
    if n > 0 {
      SlackWithin(o, n - 1, gap);
    }
  }

  lemma {:induction false} SpanKept(o: Oracle, steps: seq<Step>, id: nat, gap: nat, lost: nat)
    requires SlowBy(o, gap) && (gap <= lost || 5 * MINUTE <= lost)
    ensures KeepsSpan(o, steps, id, lost)
  {
    hide Run, SlowBy;
    var s := Run(o, Init, steps);
    if id in s.records.at && s.records.at[id].status == Cancelled {
      CancelledRecord(o, steps, id);
      SlackWithin(o, |s.posts|, gap);
    }
  }

  // Every attempt fails, and only the first is slow to read the clock.
  function SlowOnce(gap: nat): Oracle {
    (n: nat) => Reply(500, "", 0, if n == 0 then gap else 0, 0, 0)
  }

  lemma {:induction false} RunAppend(o: Oracle, s: State, first: seq<Step>, second: seq<Step>)
    ensures Run(o, s, first + second) == Run(o, Run(o, s, first), second)
    decreases |first|
  {
    hide Next;
    if first == [] {
      assert first + second == second;
    } else {
      assert (first + second)[1..] == first[1..] + second;
      RunAppend(o, Next(o, s, first[0]), first[1..], second);
    }
  }

  // The record has failed `n` times and waits for its next try.
  ghost predicate Waits(s: State, n: nat, first: int, next: int) {
    && 0 in s.records.at && |s.posts| == n && s.now <= next
    && var r := s.records.at[0];
    && r.id == 0 && r.status == Failed && r.tries == n && r.firstTryAt == Some(first) && r.nextTryAt == Some(next)
  }

  lemma {:induction false} OneRound(gap: nat, s: State, n: nat, first: int, next: int) returns (s': State)
    requires 1 <= n <= 6 && Waits(s, n, first, next)
    ensures s' == Run(SlowOnce(gap), s, [Elapse(next - s.now), Attempt(0)])
    ensures n <= 5 ==> Waits(s', n + 1, first, next + (Waited(n + 2) - Waited(n + 1)))
    ensures n == 6 ==> 0 in s'.records.at && s'.records.at[0].status == Cancelled
                       && s'.records.at[0].firstTryAt == Some(first) && s'.records.at[0].lastTryAt == Some(next)
  {
    hide Waited, GetNextTryAt, Next;
    var o, e1, e2 := SlowOnce(gap), Elapse(next - s.now), Attempt(0);
    assert [e1, e2][1..] == [e2] && [e2][1..] == [];
    var s1 := Next(o, s, e1);
    assert s1 == s.(now := next) by { ElapseIs(o, s, next - s.now); }
    s' := Next(o, s1, e2);
    assert Run(o, s1, [e2]) == Run(o, s', []) == s';
    NextTries(n + 1, next);
    FailsNow(gap, s1);
  }

  lemma {:induction false} ElapseIs(o: Oracle, s: State, ms: nat)
    ensures Next(o, s, Elapse(ms)) == s.(now := s.now + ms)
  {
  }

  // An attempt that may be made now, and is not the first.
  lemma {:induction false} FailsNow(gap: nat, s: State)
    requires 0 in s.records.at && s.records.at[0].id == 0 && 1 <= |s.posts|
    requires s.records.at[0].status == Failed && s.records.at[0].tries <= 7
    requires s.records.at[0].nextTryAt == Some(s.now) && s.records.at[0].firstTryAt.Some?
    ensures var r, s' := s.records.at[0], Next(SlowOnce(gap), s, Attempt(0));
            var next := GetNextTryAt(r.tries + 1, s.now);
            && s'.now == s.now && |s'.posts| == |s.posts| + 1 && 0 in s'.records.at
            && var r' := s'.records.at[0];
            && r'.id == 0 && r'.tries == r.tries + 1 && r'.firstTryAt == r.firstTryAt && r'.lastTryAt == Some(s.now)
            && r'.nextTryAt == next && r'.status == if next.Some? then Failed else Cancelled
  {
    hide GetNextTryAt;
  }

  lemma {:induction false} Rounds(gap: nat, s: State, n: nat, first: int, next: int) returns (steps: seq<Step>)
    requires 1 <= n <= 6 && Waits(s, n, first, next)
    ensures var s' := Run(SlowOnce(gap), s, steps);
            && 0 in s'.records.at && s'.records.at[0].status == Cancelled && s'.records.at[0].firstTryAt == Some(first)
            && s'.records.at[0].lastTryAt == Some(next + (Waited(7) - Waited(n + 1)))
    decreases 7 - n
  {
    hide Waited, Waits, Run;
    assert s.now <= next by { WaitsInTime(s, n, first, next); }
    var round := [Elapse(next - s.now), Attempt(0)];
    var s1 := OneRound(gap, s, n, first, next);
    if n == 6 {
      steps := round;
    } else {
      var rest := Rounds(gap, s1, n + 1, first, next + (Waited(n + 2) - Waited(n + 1)));
      RunAppend(SlowOnce(gap), s, round, rest);
      steps := round + rest;
    }
  }

  lemma {:induction false} WaitsInTime(s: State, n: nat, first: int, next: int)
    requires Waits(s, n, first, next)
    ensures s.now <= next
  {
  }

  const HOOK := Webhook("w", "a", "s", "u", ["e"])
  const EVENT := Event("1", 0, "e", "")

  lemma {:induction false} FirstFails(gap: nat) returns (steps: seq<Step>)
    requires gap <= 5 * MINUTE
    ensures Waits(Run(SlowOnce(gap), Init, steps), 1, gap, 5 * MINUTE)
  {
    var o, e1, e2 := SlowOnce(gap), Create(HOOK, EVENT, false), Attempt(0);
    hide Run;
    steps := [e1, e2];
    assert "e" in HOOK.events;
    RunTwo(o, Init, e1, e2);
  }

  /** A run in which a slow first attempt takes that much off the span. */
  lemma {:induction false} SpanFallsShort(lost: nat) returns (steps: seq<Step>)
    requires lost < 5 * MINUTE
    ensures SlowBy(SlowOnce(lost + 1), lost + 1) && !KeepsSpan(SlowOnce(lost + 1), steps, 0, lost)
  {
    hide Run, Waits;
    var first := FirstFails(lost + 1);
    var s := Run(SlowOnce(lost + 1), Init, first);
    var rest := Rounds(lost + 1, s, 1, lost + 1, 5 * MINUTE);
    RunAppend(SlowOnce(lost + 1), Init, first, rest);
    steps := first + rest;
    FirstWaits();
    SixBackoffs();
  }

  /**
   When no attempt takes more than `gap` from its reading for the next try to that for the first, cancelled records
   were tried over 44 hours and 35 minutes less `lost`: exactly when `gap` is no more than that, or `lost` is five
   minutes at least. In particular the whole span is kept only if the two readings fall in one instant.
   */
  lemma {:induction false} SafeAfterIff(gap: nat, lost: nat)
    ensures SafeAfter(gap, lost) <==> gap <= lost || 5 * MINUTE <= lost
  {
    hide KeepsSpan;
    if gap <= lost || 5 * MINUTE <= lost {
      forall o: Oracle, steps: seq<Step>, id: nat | SlowBy(o, gap) ensures KeepsSpan(o, steps, id, lost) {
        SpanKept(o, steps, id, gap, lost);
      }
    } else {
      var steps := SpanFallsShort(lost);
      assert SlowBy(SlowOnce(lost + 1), gap);
    }
  }

  // ----- The measure -----

  function TriesLeft(records: map<nat, OutboxEvent>): nat -> int {
    (id: nat) =>
      if id in records && (records[id].status == Pending || records[id].status == Failed)
      then 7 - records[id].tries else 0
  }

  function TotalLeft(s: State): int {
    SumBy(s.records.keys, TriesLeft(s.records.at))
  }

  lemma {:induction false} SumOneLess(keys: seq<nat>, key: nat, f: nat -> int, g: nat -> int)
    requires forall i, j :: 0 <= i < j < |keys| ==> keys[i] != keys[j]
    requires key in keys && forall k :: k in keys && k != key ==> f(k) == g(k)
    ensures SumBy(keys, g) == SumBy(keys, f) - f(key) + g(key)
  {
    if keys[0] == key {
      SumSame(keys[1..], f, g);
    } else {
      assert keys == [keys[0]] + keys[1..];
      SumOneLess(keys[1..], key, f, g);
    }
  }

  /** Every POST takes at least one of the tries left on live records; nothing but a new record adds any. */
  lemma {:induction false} StepMeasure(o: Oracle, s: State, step: Step)
    requires Accounted(o, s)
    ensures var s' := Next(o, s, step);
            && 0 <= TotalLeft(s)
            && TotalLeft(s') + |s'.posts| <= TotalLeft(s) + |s.posts| + 7 * (s'.ids - s.ids)
            && (|s.posts| < |s'.posts| ==> TotalLeft(s') < TotalLeft(s))
  {
    var s' := Next(o, s, step);
    LeftNonNegative(o, s);
    match step
    case Create(webhook, event, isTest) =>
      CreateMeasure(o, s, webhook, event, isTest);
    case Elapse(ms) =>
    case Attempt(id) =>
      if id in s.records.at && CanRetryOutboxEvent(s.records.at[id], s.now) {
        DeliverMeasure(o, s, id);
      }
  }

  lemma {:induction false} LeftNonNegative(o: Oracle, s: State)
    requires Accounted(o, s)
    ensures 0 <= TotalLeft(s)
  {
    SumNonNegative(s.records.keys, TriesLeft(s.records.at));
  }

  lemma {:induction false} CreateMeasure(o: Oracle, s: State, webhook: Webhook, event: Event, isTest: bool)
    requires Accounted(o, s)
    ensures var s' := Next(o, s, Create(webhook, event, isTest));
            s'.posts == s.posts && TotalLeft(s') == TotalLeft(s) + 7 * (s'.ids - s.ids)
  {
    hide Lawful, CountOf, CreateOutboxEvent, TriesLeft, SumBy, SlackOf;
    CreatedTries(webhook, event, isTest, s.ids, s.now);
    var created := CreateOutboxEvent(webhook, event, isTest, s.ids, s.now);
    if created.Success? {
      var more := s.records.at[s.ids := created.value];
      assert s.ids !in s.records.at && s.ids !in s.records.keys;
      SumPush(s.records.keys, s.ids, TriesLeft(more));
      OneMore(s.records.at, s.ids, created.value, s.records.keys);
      SumSame(s.records.keys, TriesLeft(s.records.at), TriesLeft(more));
    }
  }

  lemma {:induction false} CreatedTries(webhook: Webhook, event: Event, isTest: bool, id: nat, now: int)
    ensures var r := CreateOutboxEvent(webhook, event, isTest, id, now);
            r.Success? ==> r.value.id == id && r.value.status == Pending && r.value.tries == 0
  {
  }

  lemma {:induction false} OneMore(records: map<nat, OutboxEvent>, id: nat, record: OutboxEvent, keys: seq<nat>)
    requires record.status == Pending && record.tries == 0 && id !in keys
    ensures TriesLeft(records[id := record])(id) == 7
    ensures forall k :: k in keys ==> TriesLeft(records)(k) == TriesLeft(records[id := record])(k)
  {
  }

  lemma {:induction false} DeliverMeasure(o: Oracle, s: State, id: nat)
    requires Accounted(o, s) && id in s.records.at && CanRetryOutboxEvent(s.records.at[id], s.now)
    ensures TotalLeft(Deliver(o, s, s.records.at[id])) < TotalLeft(s)
  {
    hide Lawful, CanRetryOutboxEvent, Outcome, TriesLeft;
    var s', reply := Deliver(o, s, s.records.at[id]), o(|s.posts|);
    var slack, more := SlackOf(o, |s.posts|), SlackOf(o, |s.posts| + 1);
    SlackGrows(o, |s.posts|, s.now);
    LawfulLater(s.records.at[id], s.now, s.now, slack, more);
    AttemptLawful(s.records.at[id], s.now, more, reply.status, reply.response, ReadsOf(reply, s.now));
    LeftDrops(s.records.at[id], s'.records.at[id], s.records.at, s'.records.at, id);
    forall k | k in s.records.keys && k != id ensures TriesLeft(s.records.at)(k) == TriesLeft(s'.records.at)(k) {
      LeftSame(s.records.at, s'.records.at, k);
    }
    SumOneLess(s.records.keys, id, TriesLeft(s.records.at), TriesLeft(s'.records.at));
  }

  lemma {:induction false} LeftSame(records: map<nat, OutboxEvent>, records': map<nat, OutboxEvent>, id: nat)
    requires id in records && id in records' && records[id] == records'[id]
    ensures TriesLeft(records)(id) == TriesLeft(records')(id)
  {
  }

  lemma {:induction false} LeftDrops(r: OutboxEvent, r': OutboxEvent, records: map<nat, OutboxEvent>,
                                     records': map<nat, OutboxEvent>, id: nat)
    requires id in records && records[id] == r && id in records' && records'[id] == r'
    requires (r.status == Pending || r.status == Failed) && r'.tries == r.tries + 1 && 0 <= r.tries <= 6
    ensures TriesLeft(records')(id) < TriesLeft(records)(id)
  {
  }

  /** So any run makes at most seven POSTs for each record it creates. */
  lemma {:induction false} RunMeasure(o: Oracle, s: State, steps: seq<Step>)
    requires Accounted(o, s)
    ensures var s' := Run(o, s, steps);
            |s'.posts| <= |s.posts| + TotalLeft(s) + 7 * (s'.ids - s.ids)
    decreases |steps|
  {
    StepMeasure(o, s, Elapse(0));
    if steps != [] {
      StepMeasure(o, s, steps[0]);
      StepAccounted(o, s, steps[0]);
      RunMeasure(o, Next(o, s, steps[0]), steps[1..]);
    }
  }

  // ----- The sweep -----

  // Every record is stored under its own id.
  ghost predicate Keyed(records: OrderedMap<nat, OutboxEvent>) {
    records.Valid() && forall id :: id in records.at ==> records.at[id].id == id
  }

  // The records to retry among those of `keys`, in order.
  function ToRetry(records: map<nat, OutboxEvent>, keys: seq<nat>, now: int): seq<OutboxEvent>
    requires forall id :: id in keys ==> id in records
  {
    if keys == [] then []
    else
      var last := keys[|keys| - 1];
      assert forall id :: id in keys[..|keys| - 1] ==> id in keys;
      ToRetry(records, keys[..|keys| - 1], now)
      + if CanRetryOutboxEvent(records[last], now) then [records[last]] else []
  }

  function DeliverAll(o: Oracle, s: State, events: seq<OutboxEvent>): State {
    if events == [] then s else Deliver(o, DeliverAll(o, s, events[..|events| - 1]), events[|events| - 1])
  }

  function Attempts(events: seq<OutboxEvent>): seq<Step> {
    if events == [] then [] else Attempts(events[..|events| - 1]) + [Attempt(events[|events| - 1].id)]
  }

  // Sent where the record says, under its webhook's id, signed with its secret.
  ghost predicate Addressed(post: Post, r: OutboxEvent) {
    && post.record == r.id && post.url == r.deliveryUrl && post.webhookId == r.webhookId
    && post.secret == r.webhookSecret && post.event == r.event && post.trigger == r.event.name
  }

  // One POST for each, in order.
  ghost predicate AddressedAll(posts: seq<Post>, events: seq<OutboxEvent>) {
    |posts| == |events| && forall i :: 0 <= i < |posts| ==> Addressed(posts[i], events[i])
  }

  ghost predicate Untouched(events: seq<OutboxEvent>, id: nat) {
    forall e :: e in events ==> e.id != id
  }

  // A snapshot of distinct stored records, each of which may be retried.
  ghost predicate Snapshot(records: map<nat, OutboxEvent>, events: seq<OutboxEvent>, now: int) {
    events == [] ||
    var before, last := events[..|events| - 1], events[|events| - 1];
    && Snapshot(records, before, now)
    && Untouched(before, last.id)
    && last.id in records && records[last.id] == last && CanRetryOutboxEvent(last, now)
  }

  lemma {:induction false} SnapshotPush(records: map<nat, OutboxEvent>, events: seq<OutboxEvent>, last: OutboxEvent, now: int)
    requires Snapshot(records, events, now) && Untouched(events, last.id)
    requires last.id in records && records[last.id] == last && CanRetryOutboxEvent(last, now)
    ensures Snapshot(records, events + [last], now)
  {
    hide CanRetryOutboxEvent, Untouched;
    assert (events + [last])[..|events|] == events;
  }

  // What is to be retried when one more record is looked at.
  lemma {:induction false} ToRetryPush(records: map<nat, OutboxEvent>, keys: seq<nat>, last: nat, now: int)
    requires last in records && forall id :: id in keys ==> id in records
    ensures forall id :: id in keys + [last] <==> id in keys || id == last
    ensures ToRetry(records, keys + [last], now)
            == if CanRetryOutboxEvent(records[last], now) then ToRetry(records, keys, now) + [records[last]]
               else ToRetry(records, keys, now)
  {
    hide CanRetryOutboxEvent;
    assert (keys + [last])[..|keys|] == keys;
    assert ToRetry(records, keys, now) + [] == ToRetry(records, keys, now);
  }

  lemma {:induction false} ToRetryIn(records: OrderedMap<nat, OutboxEvent>, keys: seq<nat>, now: int)
    requires Keyed(records) && forall id :: id in keys ==> id in records.at
    ensures forall e :: e in ToRetry(records.at, keys, now) ==> e.id in keys
    ensures forall id :: id in keys && CanRetryOutboxEvent(records.at[id], now) ==>
              records.at[id] in ToRetry(records.at, keys, now)
  {
    hide CanRetryOutboxEvent;
    if keys != [] {
      var before, last := keys[..|keys| - 1], keys[|keys| - 1];
      assert keys == before + [last];
      ToRetryIn(records, before, now);
      ToRetryPush(records.at, before, last, now);
    }
  }

  lemma {:induction false} ToRetryIsSnapshot(records: OrderedMap<nat, OutboxEvent>, keys: seq<nat>, now: int)
    requires Keyed(records) && forall id :: id in keys ==> id in records.at
    requires forall i, j :: 0 <= i < j < |keys| ==> keys[i] != keys[j]
    ensures Snapshot(records.at, ToRetry(records.at, keys, now), now)
  {
    if keys != [] {
      hide CanRetryOutboxEvent, Snapshot, ToRetry;
      var before, last := keys[..|keys| - 1], keys[|keys| - 1];
      assert keys == before + [last];
      ToRetryIsSnapshot(records, before, now);
      ToRetryIn(records, before, now);
      ToRetryPush(records.at, before, last, now);
      if CanRetryOutboxEvent(records.at[last], now) {
        var earlier := ToRetry(records.at, before, now);
        assert records.at[last].id == last && Untouched(earlier, last);
        SnapshotPush(records.at, earlier, records.at[last], now);
      }
    }
  }

  lemma {:induction false} RunPush(o: Oracle, s: State, steps: seq<Step>, last: Step)
    ensures Run(o, s, steps + [last]) == Next(o, Run(o, s, steps), last)
    decreases |steps|
  {
    hide Next;
    if steps == [] {
      assert [] + [last] == [last] && [last][1..] == [];
    } else {
      assert (steps + [last])[1..] == steps[1..] + [last];
      RunPush(o, Next(o, s, steps[0]), steps[1..], last);
    }
  }

  // What delivering `events` leaves of a state: each posted once, in order, with one more try, and nothing else changed.
  ghost predicate Swept(s: State, s': State, events: seq<OutboxEvent>) {
    && Keyed(s'.records) && s'.records.keys == s.records.keys && s.now <= s'.now && s'.ids == s.ids
    && s.posts <= s'.posts && AddressedAll(s'.posts[|s.posts|..], events)
    && (forall e :: e in events ==> e.id in s'.records.at && s'.records.at[e.id].tries == e.tries + 1)
    && (forall id :: id in s.records.at && Untouched(events, id) ==>
          id in s'.records.at && s'.records.at[id] == s.records.at[id])
  }

  lemma {:induction false} NothingSwept(s: State)
    requires Keyed(s.records)
    ensures Swept(s, s, [])
  {
  }

  lemma {:induction false} PostAddressed(e: OutboxEvent, now: int)
    ensures AddressedAll([PostOf(e, now)], [e])
  {
  }

  lemma {:induction false} DeliverSwept(o: Oracle, s: State, e: OutboxEvent)
    requires Keyed(s.records) && e.id in s.records.at
    ensures Swept(s, Deliver(o, s, e), [e])
  {
    hide AddressedAll, PostOf;
    assert e in [e] && !Untouched([e], e.id);
    assert Deliver(o, s, e).posts[|s.posts|..] == [PostOf(e, s.now)];
    assert AddressedAll([PostOf(e, s.now)], [e]) by { PostAddressed(e, s.now); }
  }

  lemma {:induction false} AddressedPush(posts: seq<Post>, p1: seq<Post>, p2: seq<Post>, before: seq<OutboxEvent>,
                                         last: OutboxEvent)
    requires posts <= p1 <= p2 && AddressedAll(p1[|posts|..], before) && AddressedAll(p2[|p1|..], [last])
    ensures AddressedAll(p2[|posts|..], before + [last])
  {
    hide Addressed;
    assert p2[|posts|..] == p1[|posts|..] + p2[|p1|..];
  }

  lemma {:induction false} UntouchedPush(before: seq<OutboxEvent>, last: OutboxEvent, id: nat)
    ensures Untouched(before + [last], id) <==> Untouched(before, id) && last.id != id
    ensures Untouched([last], id) <==> last.id != id
  {
    assert forall e :: e in before + [last] <==> e in before || e == last;
    assert last in [last] && last in before + [last];
  }

  lemma {:induction false} SweptThen(s: State, s1: State, s2: State, before: seq<OutboxEvent>, last: OutboxEvent)
    requires Keyed(s.records) && Swept(s, s1, before) && Swept(s1, s2, [last]) && Untouched(before, last.id)
    ensures Swept(s, s2, before + [last])
  {
    hide Keyed, AddressedAll, Untouched;
    var events := before + [last];
    AddressedPush(s.posts, s1.posts, s2.posts, before, last);
    forall id: nat ensures Untouched(events, id) <==> Untouched(before, id) && last.id != id
                   ensures Untouched([last], id) <==> last.id != id
    {
      UntouchedPush(before, last, id);
    }
    forall e | e in events ensures e.id in s2.records.at && s2.records.at[e.id].tries == e.tries + 1 {
      if e in before {
        InTouched(before, e, last);
      } else {
        assert e == last && last in [last];
      }
    }
  }

  lemma {:induction false} InTouched(before: seq<OutboxEvent>, e: OutboxEvent, last: OutboxEvent)
    requires e in before && Untouched(before, last.id)
    ensures e.id != last.id
  {
  }

  /**
   Delivering a snapshot one record at a time never meets the guard: it is the run of its guarded attempts, posts each
   record once, in order, raises its tries by one, and leaves every other record alone.
   */
  lemma {:induction false} DeliverSnapshot(o: Oracle, s: State, events: seq<OutboxEvent>)
    requires Keyed(s.records) && Snapshot(s.records.at, events, s.now)
    ensures Swept(s, DeliverAll(o, s, events), events)
    ensures DeliverAll(o, s, events) == Run(o, s, Attempts(events))
    decreases |events|
  {
    if events == [] {
      NothingSwept(s);
    } else {
      hide CanRetryOutboxEvent, Outcome, Deliver, Keyed, Swept, Untouched, Next, Run;
      var before, last := events[..|events| - 1], events[|events| - 1];
      assert events == before + [last];
      DeliverSnapshot(o, s, before);
      var s1 := DeliverAll(o, s, before);
      LastStands(s, s1, before, last);
      DeliverSwept(o, s1, last);
      SweptThen(s, s1, Deliver(o, s1, last), before, last);
      AttemptStored(o, s1, last);
      RunPush(o, s, Attempts(before), Attempt(last.id));
    }
  }

  lemma {:induction false} AttemptStored(o: Oracle, s: State, outbox: OutboxEvent)
    requires s.records.Get(outbox.id) == Some(outbox) && CanRetryOutboxEvent(outbox, s.now)
    ensures Next(o, s, Attempt(outbox.id)) == Deliver(o, s, outbox)
  {
    hide Deliver;
  }

  // Until its turn comes a record of the snapshot is stored as it was, and may still be retried.
  lemma {:induction false} LastStands(s: State, s1: State, before: seq<OutboxEvent>, last: OutboxEvent)
    requires Untouched(before, last.id) && Swept(s, s1, before)
    requires last.id in s.records.at && s.records.at[last.id] == last && CanRetryOutboxEvent(last, s.now)
    ensures Keyed(s1.records) && last.id in s1.records.at && s1.records.at[last.id] == last
    ensures CanRetryOutboxEvent(last, s1.now)
  {
    RetryableLater(last, s.now, s1.now);
  }

  // ----- A batch of new records -----

  // Whether every webhook supports the event.
  predicate AllSupport(webhooks: seq<Webhook>, event: Event) {
    webhooks == [] || (AllSupport(webhooks[..|webhooks| - 1], event) && Supports(webhooks[|webhooks| - 1], event))
  }

  lemma {:induction false} AllSupportEach(webhooks: seq<Webhook>, event: Event, i: nat)
    requires AllSupport(webhooks, event) && i < |webhooks|
    ensures Supports(webhooks[i], event)
    decreases |webhooks|
  {
    if i < |webhooks| - 1 {
      AllSupportEach(webhooks[..|webhooks| - 1], event, i);
    }
  }

  // The records a batch creates: one for each webhook, with ids from `first` on.
  function NewRecords(webhooks: seq<Webhook>, event: Event, isTest: bool, first: nat, now: int): seq<OutboxEvent>
    requires AllSupport(webhooks, event)
  {
    if webhooks == [] then []
    else
      var last := webhooks[|webhooks| - 1];
      NewRecords(webhooks[..|webhooks| - 1], event, isTest, first, now)
      + [CreateOutboxEvent(last, event, isTest, first + |webhooks| - 1, now).value]
  }

  function CreateAll(o: Oracle, s: State, webhooks: seq<Webhook>, event: Event, isTest: bool): State {
    if webhooks == [] then s
    else Next(o, CreateAll(o, s, webhooks[..|webhooks| - 1], event, isTest),
              Create(webhooks[|webhooks| - 1], event, isTest))
  }

  function StoreAll(records: OrderedMap<nat, OutboxEvent>, events: seq<OutboxEvent>): OrderedMap<nat, OutboxEvent> {
    if events == [] then records
    else StoreAll(records, events[..|events| - 1]).Set(events[|events| - 1].id, events[|events| - 1])
  }

  ghost predicate FreshIds(s: State) {
    forall id :: id in s.records.at ==> id < s.ids
  }

  // The new records stand behind the old ones, in order, under ids that count on from `first`.
  ghost predicate StoredBehind(before: seq<nat>, after: seq<nat>, first: nat, events: seq<OutboxEvent>) {
    && before <= after && |after| == |before| + |events|
    && forall i :: 0 <= i < |events| ==> events[i].id == first + i && after[|before| + i] == first + i
  }

  // What storing the new records `events` leaves of a state.
  ghost predicate Batched(s: State, s': State, events: seq<OutboxEvent>) {
    && s' == State(s.now, s.ids + |events|, StoreAll(s.records, events), s.posts)
    && StoredBehind(s.records.keys, s'.records.keys, s.ids, events)
    && Keyed(s'.records) && FreshIds(s')
    && (forall e :: e in events ==> e.id < s'.ids)
    && (forall r :: r in s.records.at ==> r in s'.records.at && s'.records.at[r] == s.records.at[r])
    && Snapshot(s'.records.at, events, s'.now)
  }

  lemma {:induction false} BatchNone(s: State)
    requires Keyed(s.records) && FreshIds(s)
    ensures Batched(s, s, [])
  {
  }

  lemma {:induction false} FreshStored(records: OrderedMap<nat, OutboxEvent>, record: OutboxEvent)
    requires Keyed(records) && record.id !in records.at
    ensures Keyed(records.Set(record.id, record))
  {
  }

  lemma {:induction false} StorePush(records: OrderedMap<nat, OutboxEvent>, events: seq<OutboxEvent>, last: OutboxEvent)
    ensures StoreAll(records, events + [last]) == StoreAll(records, events).Set(last.id, last)
  {
    assert (events + [last])[..|events|] == events;
  }

  lemma {:induction false} BehindPush(before: seq<nat>, after: seq<nat>, first: nat, events: seq<OutboxEvent>, record: OutboxEvent)
    requires StoredBehind(before, after, first, events) && record.id == first + |events|
    ensures StoredBehind(before, after + [record.id], first, events + [record])
  {
  }

  lemma {:induction false} EventsPush(events: seq<OutboxEvent>, record: OutboxEvent, ids: nat)
    requires (forall e :: e in events ==> e.id < ids) && record.id == ids
    ensures Untouched(events, record.id) && forall e :: e in events + [record] ==> e.id < ids + 1
  {
  }

  lemma {:induction false} BatchStep(s: State, s1: State, events: seq<OutboxEvent>, record: OutboxEvent)
    requires Batched(s, s1, events) && record.id == s1.ids && CanRetryOutboxEvent(record, s1.now)
    ensures Batched(s, State(s1.now, s1.ids + 1, s1.records.Set(record.id, record), s1.posts), events + [record])
  {
    hide CanRetryOutboxEvent, Snapshot, Keyed, StoreAll, StoredBehind, Untouched;
    var records := s1.records.Set(record.id, record);
    BehindPush(s.records.keys, s1.records.keys, s.ids, events, record);
    EventsPush(events, record, s1.ids);
    assert record.id !in s1.records.at;
    FreshStored(s1.records, record);
    StorePush(s.records, events, record);
    SnapshotKept(s1.records.at, records.at, events, s1.now);
    SnapshotPush(records.at, events, record, s1.now);
  }

  lemma {:induction false} NewRecordsPush(webhooks: seq<Webhook>, event: Event, isTest: bool, first: nat, now: int)
    requires webhooks != [] && AllSupport(webhooks, event)
    ensures var before, last := webhooks[..|webhooks| - 1], webhooks[|webhooks| - 1];
            && AllSupport(before, event) && Supports(last, event)
            && NewRecords(webhooks, event, isTest, first, now)
               == NewRecords(before, event, isTest, first, now)
                  + [CreateOutboxEvent(last, event, isTest, first + |before|, now).value]
  {
    hide CreateOutboxEvent, Supports;
    SupportedCreates(webhooks[|webhooks| - 1], event, isTest, first + |webhooks| - 1, now);
  }

  lemma {:induction false} SupportedCreates(webhook: Webhook, event: Event, isTest: bool, id: nat, now: int)
    requires Supports(webhook, event)
    ensures CreateOutboxEvent(webhook, event, isTest, id, now).Success?
  {
  }

  lemma {:induction false} CreateAllPush(o: Oracle, s: State, webhooks: seq<Webhook>, event: Event, isTest: bool)
    requires webhooks != []
    ensures CreateAll(o, s, webhooks, event, isTest)
            == Next(o, CreateAll(o, s, webhooks[..|webhooks| - 1], event, isTest),
                    Create(webhooks[|webhooks| - 1], event, isTest))
  {
    hide Next;
  }

  /** A batch stores its new records one after the other, each pending and ready for its first POST. */
  lemma {:induction false} BatchCreated(o: Oracle, s: State, webhooks: seq<Webhook>, event: Event, isTest: bool)
    requires Keyed(s.records) && FreshIds(s) && AllSupport(webhooks, event)
    ensures |NewRecords(webhooks, event, isTest, s.ids, s.now)| == |webhooks|
    ensures Batched(s, CreateAll(o, s, webhooks, event, isTest), NewRecords(webhooks, event, isTest, s.ids, s.now))
    decreases |webhooks|
  {
    hide CanRetryOutboxEvent, CreateOutboxEvent, Snapshot, Supports, Keyed, FreshIds, StoreAll, Next, Batched;
    if webhooks == [] {
      BatchNone(s);
    } else {
      hide NewRecords, CreateAll, AllSupport;
      var before, last := webhooks[..|webhooks| - 1], webhooks[|webhooks| - 1];
      NewRecordsPush(webhooks, event, isTest, s.ids, s.now);
      CreateAllPush(o, s, webhooks, event, isTest);
      BatchCreated(o, s, before, event, isTest);
      var events, s1 := NewRecords(before, event, isTest, s.ids, s.now), CreateAll(o, s, before, event, isTest);
      BatchMore(o, s, s1, events, last, event, isTest);
    }
  }

  // One more webhook of the batch.
  lemma {:induction false} BatchMore(o: Oracle, s: State, s1: State, events: seq<OutboxEvent>, webhook: Webhook,
                                     event: Event, isTest: bool)
    requires Batched(s, s1, events) && Supports(webhook, event)
    ensures var created := CreateOutboxEvent(webhook, event, isTest, s.ids + |events|, s.now);
            && created.Success?
            && Batched(s, Next(o, s1, Create(webhook, event, isTest)), events + [created.value])
  {
    hide CanRetryOutboxEvent, CreateOutboxEvent, Snapshot, Supports, Keyed, FreshIds, StoreAll, Next, Batched;
    BatchIs(s, s1, events);
    NewRecord(o, s1, webhook, event, isTest);
    BatchStep(s, s1, events, CreateOutboxEvent(webhook, event, isTest, s1.ids, s1.now).value);
  }

  lemma {:induction false} BatchIs(s: State, s1: State, events: seq<OutboxEvent>)
    requires Batched(s, s1, events)
    ensures s1 == State(s.now, s.ids + |events|, StoreAll(s.records, events), s.posts)
    ensures Keyed(s1.records) && Snapshot(s1.records.at, events, s1.now)
  {
  }

  lemma {:induction false} NewRecord(o: Oracle, s: State, webhook: Webhook, event: Event, isTest: bool)
    requires Supports(webhook, event)
    ensures var r := CreateOutboxEvent(webhook, event, isTest, s.ids, s.now);
            && r.Success? && r.value.id == s.ids && CanRetryOutboxEvent(r.value, s.now)
            && Next(o, s, Create(webhook, event, isTest))
               == State(s.now, s.ids + 1, s.records.Set(r.value.id, r.value), s.posts)
  {
  }

  lemma {:induction false} SnapshotKept(records: map<nat, OutboxEvent>, more: map<nat, OutboxEvent>,
                                        events: seq<OutboxEvent>, now: int)
    requires Snapshot(records, events, now)
    requires forall id :: id in records ==> id in more && more[id] == records[id]
    ensures Snapshot(more, events, now)
    decreases |events|
  {
    if events != [] {
      SnapshotKept(records, more, events[..|events| - 1], now);
    }
  }

  // ----- The code itself -----

  /** The clock, the generator of ids and the network, as the code below sees them. */
  class Surroundings {
    const oracle: Oracle
    var now: int
    var ids: nat
    var posts: seq<Post>

    constructor (oracle: Oracle, now: int)
      ensures this.oracle == oracle && this.now == now && ids == 0 && posts == []
    {
      this.oracle, this.now, ids, posts := oracle, now, 0, [];
    }

    method GenerateUuid() returns (id: nat)
      modifies this`ids
      ensures id == old(ids) && ids == old(ids) + 1
    {
      id, ids := ids, ids + 1;
    }

    method PostTo(record: nat, url: string, webhookId: string, secret: string, trigger: string, event: Event)
      returns (reply: Reply)
      modifies this`now, this`posts
      ensures reply == oracle(|old(posts)|) && now == old(now) + reply.latency
      ensures posts == old(posts) + [Post(record, old(now), url, webhookId, secret, trigger, event)]
    {
      reply := oracle(|posts|);
      posts := posts + [Post(record, now, url, webhookId, secret, trigger, event)];
      now := now + reply.latency;
    }

    // One reading of the clock, and the time until the next.
    method ReadClock(wait: nat) returns (at: int)
      modifies this`now
      ensures at == old(now) && now == at + wait
    {
      at, now := now, now + wait;
    }
  }

  class InMemoryOutboxEventRepository {
    var map_: OrderedMap<nat, OutboxEvent>

    constructor ()
      ensures map_ == Empty() && Valid()
    {
      map_ := Empty();
    }

    ghost predicate Valid()
      reads this
    {
      Keyed(map_)
    }

    method Create(outboxEvent: OutboxEvent)
      modifies this
      ensures map_ == old(map_).Set(outboxEvent.id, outboxEvent) && (old(Valid()) ==> Valid())
    {
      map_ := map_.Set(outboxEvent.id, outboxEvent);
    }

    method CreateBatch(outboxEvents: seq<OutboxEvent>)
      modifies this
      ensures map_ == StoreAll(old(map_), outboxEvents)
    {
      for i := 0 to |outboxEvents|
        invariant map_ == StoreAll(old(map_), outboxEvents[..i])
      {
        assert outboxEvents[..i + 1][..i] == outboxEvents[..i];
        map_ := map_.Set(outboxEvents[i].id, outboxEvents[i]);
      }
      assert outboxEvents[..|outboxEvents|] == outboxEvents;
    }

    method Update(outboxEvent: OutboxEvent)
      modifies this
      ensures map_ == old(map_).Set(outboxEvent.id, outboxEvent) && (old(Valid()) ==> Valid())
    {
      map_ := map_.Set(outboxEvent.id, outboxEvent);
    }

    method OfId(id: nat) returns (outboxEvent: Option<OutboxEvent>)
      ensures outboxEvent == map_.Get(id)
    {
      outboxEvent := if id in map_.at then Some(map_.at[id]) else None;
    }

    /** Every record that may be retried now, once, in the order the records were created. */
    method AllToRetry(now: int) returns (events: seq<OutboxEvent>)
      requires Valid()
      ensures events == ToRetry(map_.at, map_.keys, now)
      ensures Snapshot(map_.at, events, now)
      ensures forall id :: id in map_.at && CanRetryOutboxEvent(map_.at[id], now) ==> map_.at[id] in events
    {
      hide CanRetryOutboxEvent;
      var keys := map_.keys;
      events := [];
      for i := 0 to |keys|
        invariant events == ToRetry(map_.at, keys[..i], now)
      {
        assert keys[..i + 1][..i] == keys[..i];
        assert keys[i] in keys;
        if CanRetryOutboxEvent(map_.at[keys[i]], now) {
          events := events + [map_.at[keys[i]]];
        }
      }
      assert keys[..|keys|] == keys;
      ToRetryIn(map_, keys, now);
      ToRetryIsSnapshot(map_, keys, now);
    }
  }

  ghost function StateOf(env: Surroundings, repository: InMemoryOutboxEventRepository): State
    reads env, repository
  {
    State(env.now, env.ids, repository.map_, env.posts)
  }

  // One POST more, and that for this record.
  ghost predicate PostedTo(before: seq<Post>, after: seq<Post>, outbox: OutboxEvent) {
    |after| == |before| + 1 && before <= after && Addressed(after[|before|], outbox)
  }

  // One POST for a record, and the update that follows its reply.
  method PostAndUpdate(outbox: OutboxEvent, env: Surroundings, repository: InMemoryOutboxEventRepository)
    returns (result: OutboxEvent)
    requires repository.Valid()
    modifies env, repository
    ensures StateOf(env, repository) == Deliver(env.oracle, old(StateOf(env, repository)), outbox)
    ensures repository.Valid()
    ensures outbox.id in repository.map_.at && result == repository.map_.at[outbox.id]
    ensures PostedTo(old(env.posts), env.posts, outbox)
  {
    hide OutboxEventDelivered, OutboxEventDeliveryFailed, Keyed, Deliver;
    ghost var s := StateOf(env, repository);
    var event := outbox.event;
    var reply := env.PostTo(outbox.id, outbox.deliveryUrl, outbox.webhookId, outbox.webhookSecret, event.name, event);
    var next := env.ReadClock(reply.toFirst);
    var first := env.ReadClock(reply.toLast);
    var last := env.ReadClock(reply.toUpdated);
    var at := Reads(next, first, last, env.now);
    if reply.status == 200 || reply.status == 201 {
      result := OutboxEventDelivered(outbox, reply.status, reply.response, at);
    } else {
      result := OutboxEventDeliveryFailed(outbox, reply.status, reply.response, at);
    }
    DeliverIs(env.oracle, s, outbox, at, result);
    repository.Update(result);
  }

  lemma {:induction false} DeliverIs(o: Oracle, s: State, outbox: OutboxEvent, at: Reads, result: OutboxEvent)
    requires var reply := o(|s.posts|);
             at == ReadsOf(reply, s.now) && result == Outcome(outbox, reply.status, reply.response, at)
    ensures result.id == outbox.id
    ensures Deliver(o, s, outbox) == State(at.updated, s.ids, s.records.Set(outbox.id, result),
                                           s.posts + [PostOf(outbox, s.now)])
  {
  }

  // One POST of the event to each webhook, in order: to its URL, under its id, signed with its secret.
  ghost predicate SentTo(posts: seq<Post>, webhooks: seq<Webhook>, event: Event) {
    |posts| == |webhooks| && forall i :: 0 <= i < |webhooks| ==>
      && posts[i].url == webhooks[i].deliveryUrl && posts[i].webhookId == webhooks[i].id
      && posts[i].secret == webhooks[i].secret && posts[i].event == event && posts[i].trigger == event.name
  }

  lemma {:induction false} RecordsFor(webhooks: seq<Webhook>, event: Event, isTest: bool, first: nat, now: int)
    requires AllSupport(webhooks, event)
    ensures var records := NewRecords(webhooks, event, isTest, first, now);
            |records| == |webhooks| && forall i :: 0 <= i < |webhooks| ==>
              && records[i].deliveryUrl == webhooks[i].deliveryUrl && records[i].webhookId == webhooks[i].id
              && records[i].webhookSecret == webhooks[i].secret && records[i].event == event
  {
    if webhooks != [] {
      hide CreateOutboxEvent, Supports, NewRecords, AllSupport;
      var before, last := webhooks[..|webhooks| - 1], webhooks[|webhooks| - 1];
      NewRecordsPush(webhooks, event, isTest, first, now);
      RecordsFor(before, event, isTest, first, now);
      SupportedCreates(last, event, isTest, first + |before|, now);
      CreatedLawful(last, event, isTest, first + |before|, now);
    }
  }

  lemma {:induction false} SentOne(before: seq<Post>, after: seq<Post>, outbox: OutboxEvent, webhook: Webhook, event: Event,
                                   isTest: bool, now: int)
    requires CreateOutboxEvent(webhook, event, isTest, outbox.id, now) == Success(outbox)
    requires PostedTo(before, after, outbox)
    ensures before <= after && SentTo(after[|before|..], [webhook], event)
  {
    CreatedLawful(webhook, event, isTest, outbox.id, now);
  }

  lemma {:induction false} AddressedSent(posts: seq<Post>, webhooks: seq<Webhook>, event: Event, isTest: bool, first: nat,
                                         now: int)
    requires AllSupport(webhooks, event) && AddressedAll(posts, NewRecords(webhooks, event, isTest, first, now))
    ensures SentTo(posts, webhooks, event)
  {
    hide NewRecords, AllSupport;
    RecordsFor(webhooks, event, isTest, first, now);
  }

  /** An unsupported event stores and posts nothing; any other is stored and posted once. */
  method SendEventToWebhook(webhook: Webhook, event: Event, isTest: bool, env: Surroundings,
                            repository: InMemoryOutboxEventRepository)
    returns (result: Result<OutboxEvent, ValidationError>)
    requires repository.Valid() && FreshIds(StateOf(env, repository))
    modifies env, repository
    ensures result.Failure? <==> !Supports(webhook, event)
    ensures result.Failure? ==> StateOf(env, repository) == old(StateOf(env, repository))
    ensures result.Failure? ==> result.error == EventNotSupported(webhook.id, event.name)
    ensures result.Success? ==>
              StateOf(env, repository)
              == Run(env.oracle, old(StateOf(env, repository)), [Create(webhook, event, isTest), Attempt(old(env.ids))])
    ensures result.Success? ==> old(env.posts) <= env.posts && SentTo(env.posts[|old(env.posts)|..], [webhook], event)
  {
    ghost var s := StateOf(env, repository);
    if !Supports(webhook, event) {
      return Failure(EventNotSupported(webhook.id, event.name));
    }
    hide CreateOutboxEvent, CanRetryOutboxEvent, Supports, Deliver, Next, Keyed, FreshIds, PostedTo, SentTo;
    NewRecord(env.oracle, s, webhook, event, isTest);
    var id := env.GenerateUuid();
    var outbox := CreateOutboxEvent(webhook, event, isTest, id, env.now).value;
    repository.Create(outbox);
    ghost var created := Next(env.oracle, s, Step.Create(webhook, event, isTest));
    assert StateOf(env, repository) == created;
    AttemptStored(env.oracle, created, outbox);
    var sent := PostAndUpdate(outbox, env, repository);
    SentOne(s.posts, env.posts, outbox, webhook, event, isTest, s.now);
    RunTwo(env.oracle, s, Step.Create(webhook, event, isTest), Attempt(id));
    return Success(sent);
  }

  lemma {:induction false} RunTwo(o: Oracle, s: State, a: Step, b: Step)
    ensures Run(o, s, [a, b]) == Next(o, Next(o, s, a), b)
  {
    hide Next;
    assert [a] == [] + [a] && [a, b] == [a] + [b];
    RunPush(o, s, [], a);
    RunPush(o, s, [a], b);
  }

  // That the error names the first of the webhooks that does not support the event.
  ghost predicate FirstUnsupported(webhooks: seq<Webhook>, event: Event, error: ValidationError) {
    exists i :: 0 <= i < |webhooks| && AllSupport(webhooks[..i], event) && !Supports(webhooks[i], event)
                && error == EventNotSupported(webhooks[i].id, event.name)
  }

  method CreateBatchOutboxEvents(webhooks: seq<Webhook>, event: Event, isTest: bool, env: Surroundings,
                                 repository: InMemoryOutboxEventRepository)
    returns (result: Result<seq<OutboxEvent>, ValidationError>)
    requires repository.Valid() && FreshIds(StateOf(env, repository))
    modifies env`ids, repository
    ensures result.Success? <==> AllSupport(webhooks, event)
    ensures result.Failure? ==> repository.map_ == old(repository.map_) && FirstUnsupported(webhooks, event, result.error)
    ensures result.Success? ==>
              && result.value == NewRecords(webhooks, event, isTest, old(env.ids), env.now)
              && StateOf(env, repository) == CreateAll(env.oracle, old(StateOf(env, repository)), webhooks, event, isTest)
  {
    hide Batched, CanRetryOutboxEvent, CreateOutboxEvent, Supports, CreateAll, Keyed, FreshIds, Next, Snapshot, StoreAll;
    ghost var s := StateOf(env, repository);
    var outboxEvents := [];
    for i := 0 to |webhooks|
      invariant AllSupport(webhooks[..i], event)
      invariant env.ids == s.ids + i && repository.map_ == s.records
      invariant outboxEvents == NewRecords(webhooks[..i], event, isTest, s.ids, s.now)
    {
      assert webhooks[..i + 1][..i] == webhooks[..i];
      if !Supports(webhooks[i], event) {
        if AllSupport(webhooks, event) {
          AllSupportEach(webhooks, event, i);
        }
        return Failure(EventNotSupported(webhooks[i].id, event.name));
      }
      NewRecordsPush(webhooks[..i + 1], event, isTest, s.ids, s.now);
      SupportedCreates(webhooks[i], event, isTest, env.ids, env.now);
      var id := env.GenerateUuid();
      var created := CreateOutboxEvent(webhooks[i], event, isTest, id, env.now);
      outboxEvents := outboxEvents + [created.value];
    }
    assert webhooks[..|webhooks|] == webhooks;
    BatchCreated(env.oracle, s, webhooks, event, isTest);
    BatchIs(s, CreateAll(env.oracle, s, webhooks, event, isTest), outboxEvents);
    repository.CreateBatch(outboxEvents);
    return Success(outboxEvents);
  }

  method SendBatchOutboxEvents(outboxEvents: seq<OutboxEvent>, env: Surroundings,
                               repository: InMemoryOutboxEventRepository)
    returns (results: seq<OutboxEvent>)
    requires repository.Valid()
    modifies env, repository
    ensures StateOf(env, repository) == DeliverAll(env.oracle, old(StateOf(env, repository)), outboxEvents)
    ensures repository.Valid()
    ensures |results| == |outboxEvents|
    ensures forall i :: 0 <= i < |results| ==> results[i].id == outboxEvents[i].id
  {
    hide Deliver;
    results := [];
    for i := 0 to |outboxEvents|
      invariant repository.Valid()
      invariant StateOf(env, repository) == DeliverAll(env.oracle, old(StateOf(env, repository)), outboxEvents[..i])
      invariant |results| == i && forall j :: 0 <= j < i ==> results[j].id == outboxEvents[j].id
    {
      assert outboxEvents[..i + 1][..i] == outboxEvents[..i];
      var result := PostAndUpdate(outboxEvents[i], env, repository);
      results := results + [result];
    }
    assert outboxEvents[..|outboxEvents|] == outboxEvents;
  }

  /** Either some webhook does not support the event, and nothing is stored or posted, or each gets one record and POST. */
  method SendEventToWebhooks(webhooks: seq<Webhook>, event: Event, isTest: bool, env: Surroundings,
                             repository: InMemoryOutboxEventRepository)
    returns (result: Result<seq<OutboxEvent>, ValidationError>)
    requires repository.Valid() && FreshIds(StateOf(env, repository))
    modifies env, repository
    ensures result.Success? <==> AllSupport(webhooks, event)
    ensures result.Failure? ==> repository.map_ == old(repository.map_) && env.posts == old(env.posts)
    ensures result.Failure? ==> FirstUnsupported(webhooks, event, result.error)
    ensures result.Success? ==>
              var s := CreateAll(env.oracle, old(StateOf(env, repository)), webhooks, event, isTest);
              var events := NewRecords(webhooks, event, isTest, old(env.ids), old(env.now));
              && Swept(s, StateOf(env, repository), events)
              && StateOf(env, repository) == Run(env.oracle, s, Attempts(events))
    ensures result.Success? ==> old(env.posts) <= env.posts && SentTo(env.posts[|old(env.posts)|..], webhooks, event)
  {
    hide Swept, Snapshot, Batched, CanRetryOutboxEvent, CreateOutboxEvent, Supports, CreateAll, Deliver;
    ghost var s := StateOf(env, repository);
    var outboxEvents := CreateBatchOutboxEvents(webhooks, event, isTest, env, repository);
    if outboxEvents.Failure? {
      return outboxEvents;
    }
    BatchCreated(env.oracle, s, webhooks, event, isTest);
    BatchIs(s, StateOf(env, repository), outboxEvents.value);
    DeliverSnapshot(env.oracle, StateOf(env, repository), outboxEvents.value);
    ghost var stored := StateOf(env, repository);
    var sent := SendBatchOutboxEvents(outboxEvents.value, env, repository);
    SweptPosts(stored, StateOf(env, repository), outboxEvents.value);
    AddressedSent(env.posts[|s.posts|..], webhooks, event, isTest, s.ids, s.now);
    return Success(sent);
  }

  lemma {:induction false} SweptPosts(s: State, s': State, events: seq<OutboxEvent>)
    requires Swept(s, s', events)
    ensures s.posts <= s'.posts && AddressedAll(s'.posts[|s.posts|..], events)
  {
  }

  /** Refused, and nothing posted, exactly when the record may not be retried now. */
  method RetryOutboxEvent(outbox: OutboxEvent, env: Surroundings, repository: InMemoryOutboxEventRepository)
    returns (result: Result<OutboxEvent, ValidationError>)
    requires repository.Valid()
    modifies env, repository
    ensures repository.Valid()
    ensures result.Success? <==> CanRetryOutboxEvent(outbox, old(env.now))
    ensures result.Failure? ==> result.error == CannotRetry(outbox.id)
    ensures StateOf(env, repository)
            == if result.Success? then Deliver(env.oracle, old(StateOf(env, repository)), outbox)
               else old(StateOf(env, repository))
    ensures result.Success? ==> PostedTo(old(env.posts), env.posts, outbox)
  {
    if !CanRetryOutboxEvent(outbox, env.now) {
      return Failure(CannotRetry(outbox.id));
    }
    var sent := PostAndUpdate(outbox, env, repository);
    return Success(sent);
  }

  class RetryOutboxEventsScheduledJob {
    const env: Surroundings
    const repository: InMemoryOutboxEventRepository

    constructor (env: Surroundings, repository: InMemoryOutboxEventRepository)
      ensures this.env == env && this.repository == repository
    {
      this.env, this.repository := env, repository;
    }

    /**
     Whatever the repository holds, the sweep never meets the guard: it posts each record that could be retried when it
     began, once, raises its tries by one, and leaves every other record as it was.
     */
    method Sweep() returns (thrown: bool)
      requires repository.Valid()
      modifies env, repository
      ensures !thrown && repository.Valid()
      ensures var s := old(StateOf(env, repository));
              var events := ToRetry(s.records.at, s.records.keys, s.now);
              && Swept(s, StateOf(env, repository), events)
              && StateOf(env, repository) == Run(env.oracle, s, Attempts(events))
    {
      hide Deliver, CanRetryOutboxEvent, Swept, ToRetry, Snapshot;
      ghost var s := StateOf(env, repository);
      var events := repository.AllToRetry(env.now);
      DeliverSnapshot(env.oracle, s, events);
      var i := 0;
      thrown := false;
      while i < |events| && !thrown
        invariant 0 <= i <= |events| && !thrown && repository.Valid()
        invariant StateOf(env, repository) == DeliverAll(env.oracle, s, events[..i])
      {
        DeliverNext(env.oracle, s, events, i);
        var retried := RetryOutboxEvent(events[i], env, repository);
        thrown, i := retried.Failure?, i + 1;
      }
      assert events[..|events|] == events;
    }
  }

  lemma {:induction false} SnapshotPrefix(records: map<nat, OutboxEvent>, events: seq<OutboxEvent>, now: int, n: nat)
    requires Snapshot(records, events, now) && n <= |events|
    ensures Snapshot(records, events[..n], now)
    decreases |events|
  {
    if n < |events| {
      assert events[..|events| - 1][..n] == events[..n];
      SnapshotPrefix(records, events[..|events| - 1], now, n);
    } else {
      assert events[..n] == events;
    }
  }

  // When its turn comes, a record of the snapshot may still be retried.
  lemma {:induction false} DeliverNext(o: Oracle, s: State, events: seq<OutboxEvent>, i: nat)
    requires Keyed(s.records) && Snapshot(s.records.at, events, s.now) && i < |events|
    ensures CanRetryOutboxEvent(events[i], DeliverAll(o, s, events[..i]).now)
    ensures DeliverAll(o, s, events[..i + 1]) == Deliver(o, DeliverAll(o, s, events[..i]), events[i])
  {
    hide CanRetryOutboxEvent, Deliver;
    SnapshotPrefix(s.records.at, events, s.now, i);
    SnapshotPrefix(s.records.at, events, s.now, i + 1);
    assert events[..i + 1][..i] == events[..i] && events[..i + 1][i] == events[i];
    DeliverSnapshot(o, s, events[..i]);
    RetryableLater(events[i], s.now, DeliverAll(o, s, events[..i]).now);
  }
}
