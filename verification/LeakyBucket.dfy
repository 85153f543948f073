/**
 The leaky bucket: one queue of waiting requests per user and token, each drained from its front by a timer. A request
 up to its await, and a whole tick of the timer, each run without interruption.
 */
module LeakyBucket {
  import opened OrderedMaps
  import Pairs
  import opened Quotas
  import opened Wrappers

  datatype Config = Config(capacity: int, leaksPerSecond: int)

  // A queued request; the ticket stands for the promise its resolver settles.
  datatype Waiter = Waiter(ticket: nat, limits: QuotaLimits)

  datatype Release = Release(key: string, waiter: Waiter, summary: QuotaSummary)

  datatype Acceptance = Acceptance(key: string, waiter: Waiter)

  type Buckets = OrderedMap<string, seq<Waiter>>

  datatype InvalidConfiguration = CapacityTooSmall | LeaksTooSmall

  predicate ValidConfig(c: Config) {
    c.capacity >= 1 && c.leaksPerSecond >= 1
  }

  // ----- Keys -----

  function Key(userId: string, token: string): string {
    userId + ":" + token
  }

  // The pieces of `s` between the colons.
  function Split(s: string): (pieces: seq<string>)
    ensures 1 <= |pieces|
  {
    if s == "" then [""]
    else
      var rest := Split(s[1..]);
      if s[0] == ':' then [""] + rest else [[s[0]] + rest[0]] + rest[1..]
  }

  // Only the first two pieces are kept; a missing one would print as "undefined".
  function ReverseKey(key: string): (string, string) {
    var pieces := Split(key);
    (pieces[0], if |pieces| > 1 then pieces[1] else "undefined")
  }

  lemma {:induction false} SplitAtColon(before: string, after: string)
    requires ':' !in before
    ensures Split(before + ":" + after) == [before] + Split(after)
  {
    var s := before + ":" + after;
    if before == "" {
      assert s[1..] == after;
    } else {
      assert s[1..] == before[1..] + ":" + after;
      SplitAtColon(before[1..], after);
      assert [before[0]] + before[1..] == before;
    }
  }

  lemma {:induction false} SplitPlain(s: string)
    ensures Split(s)[0] == s <==> ':' !in s
    ensures ':' !in s ==> Split(s) == [s]
    ensures ':' !in Split(s)[0]
  {
    if s != "" {
      SplitPlain(s[1..]);
      assert s == [s[0]] + s[1..];
      assert ':' in s <==> s[0] == ':' || ':' in s[1..];
      if s[0] != ':' {
        var rest := Split(s[1..]);
        assert Split(s)[0] == [s[0]] + rest[0];
        assert Split(s)[0] == s ==> rest[0] == s[1..] by {
          assert Split(s)[0][1..] == rest[0];
        }
      }
    }
  }

  /** `reverseKey` undoes `key` exactly when neither id holds a colon. */
  lemma {:induction false} ReverseKeyIff(userId: string, token: string)
    ensures ReverseKey(Key(userId, token)) == (userId, token) <==> ':' !in userId && ':' !in token
  {
    SplitPlain(Key(userId, token));
    if ':' !in userId {
      SplitAtColon(userId, token);
      SplitPlain(token);
    } else {
      assert ':' !in ReverseKey(Key(userId, token)).0;
    }
  }

  /** A pair shares its queue with another pair exactly when one of its ids holds a colon. */
  lemma {:induction false} SharedQueueIff(userId: string, token: string)
    ensures (exists u: string, t: string :: (u, t) != (userId, token) && Key(u, t) == Key(userId, token))
            <==> ':' in userId || ':' in token
  {
    Pairs.SharedIff(userId, token);
    forall u: string, t: string ensures Key(u, t) == Key(userId, token) <==> u + ":" + t == userId + ":" + token {
    }
  }

  // ----- What is left -----

  function Queue(b: Buckets, key: string): seq<Waiter> {
    if key in b.at then b.at[key] else []
  }

  // The four numbers `calculateRemaining` gives for a queue of `length`; a missing queue counts as empty.
  function Remaining(c: Config, unit: Unit, length: int): int {
    match unit
    case Second => c.capacity - length
    case Minute => c.leaksPerSecond * 60 + c.capacity - length
    case Hour => c.leaksPerSecond * 60 * 60 + c.capacity - length
    case Day => c.leaksPerSecond * 60 * 60 * 24 + c.capacity - length
  }

  function Summary(c: Config, limits: QuotaLimits, length: int, passed: int, reset: Option<int>): QuotaSummary {
    QuotaSummary(Quota(limits.perSecond, Remaining(c, Second, length) + passed, reset),
                 Quota(limits.perMinute, Remaining(c, Minute, length) + passed, reset),
                 Quota(limits.perHour, Remaining(c, Hour, length) + passed, reset),
                 Quota(limits.perDay, Remaining(c, Day, length) + passed, reset))
  }

  /**
   What a summary says in numbers, when `free` places are left: that per second, and the leaks of a minute, an hour and a
   day more per minute, hour and day.
   */
  ghost predicate Tells(c: Config, summary: QuotaSummary, limits: QuotaLimits, free: int, reset: Option<int>) {
    && summary.perSecond == Quota(limits.perSecond, free, reset)
    && summary.perMinute == Quota(limits.perMinute, free + 60 * c.leaksPerSecond, reset)
    && summary.perHour == Quota(limits.perHour, free + 3600 * c.leaksPerSecond, reset)
    && summary.perDay == Quota(limits.perDay, free + 86400 * c.leaksPerSecond, reset)
  }

  lemma {:induction false} SummaryTells(c: Config, limits: QuotaLimits, length: int, passed: int, reset: Option<int>)
    ensures Tells(c, Summary(c, limits, length, passed, reset), limits, c.capacity - length + passed, reset)
  {
  }

  // ----- The timer -----

  function Passed(c: Config, queue: seq<Waiter>): (passed: nat)
    requires ValidConfig(c)
    ensures passed <= |queue|
  {
    if |queue| <= c.leaksPerSecond then |queue| else c.leaksPerSecond
  }

  // The releases of the first `n` waiters of a queue, told that `length` requests are queued.
  function Releases(c: Config, key: string, queue: seq<Waiter>, length: int, n: nat, now: int): seq<Release>
    requires n <= |queue|
  {
    seq(n, i requires 0 <= i < n =>
      Release(key, queue[i], Summary(c, queue[i].limits, length, i + 1, Some(now + 1000))))
  }

  // The length read back through `reverseKey` and `key`.
  function ReadBack(b: Buckets, key: string): int {
    var (userId, token) := ReverseKey(key);
    |Queue(b, Key(userId, token))|
  }

  function LeakOne(c: Config, b: Buckets, key: string, now: int): (Buckets, seq<Release>)
    requires ValidConfig(c)
  {
    var queue := Queue(b, key);
    if |queue| == 0 then (b, [])
    else
      var n := Passed(c, queue);
      (b.Set(key, queue[n..]), Releases(c, key, queue, ReadBack(b, key), n, now))
  }

  // The map's keys in order, each read from the map as the earlier ones left it.
  function Leak(c: Config, b: Buckets, keys: seq<string>, now: int): (Buckets, seq<Release>)
    requires ValidConfig(c)
    decreases |keys|
  {
    if keys == [] then (b, [])
    else
      var (before, released) := Leak(c, b, keys[..|keys| - 1], now);
      var (after, more) := LeakOne(c, before, keys[|keys| - 1], now);
      (after, released + more)
  }

  // ----- Runs -----

  datatype State = State(buckets: Buckets, tickets: nat, accepted: seq<Acceptance>, resolved: seq<Release>)

  datatype Event =
    | Ask(userId: string, token: string, limits: QuotaLimits)
    | Tick(now: int)

  const Init := State(Empty(), 0, [], [])

  function Admit(c: Config, s: State, key: string, limits: QuotaLimits): State {
    var buckets := if key in s.buckets.at then s.buckets else s.buckets.Set(key, []);
    var queue := Queue(buckets, key);
    if |queue| >= c.capacity then s.(buckets := buckets)
    else
      var waiter := Waiter(s.tickets, limits);
      State(buckets.Set(key, queue + [waiter]), s.tickets + 1, s.accepted + [Acceptance(key, waiter)], s.resolved)
  }

  lemma {:induction false} AdmitIs(c: Config, s: State, key: string, limits: QuotaLimits)
    ensures var buckets := if key in s.buckets.at then s.buckets else s.buckets.Set(key, []);
            var queue, waiter := Queue(s.buckets, key), Waiter(s.tickets, limits);
            && key in buckets.at && buckets.at[key] == queue
            && Admit(c, s, key, limits)
               == if |queue| >= c.capacity then State(buckets, s.tickets, s.accepted, s.resolved)
                  else State(buckets.Set(key, queue + [waiter]), s.tickets + 1, s.accepted + [Acceptance(key, waiter)],
                             s.resolved)
  {
  }

  function Next(c: Config, s: State, e: Event): State
    requires ValidConfig(c)
  {
    match e
    case Ask(userId, token, limits) => Admit(c, s, Key(userId, token), limits)
    case Tick(now) =>
      var (buckets, released) := Leak(c, s.buckets, s.buckets.keys, now);
      s.(buckets := buckets, resolved := s.resolved + released)
  }

  function Run(c: Config, s: State, events: seq<Event>): State
    requires ValidConfig(c)
    decreases |events|
  {
    if events == [] then s else Run(c, Next(c, s, events[0]), events[1..])
  }

  function Ticks(events: seq<Event>): nat {
    if events == [] then 0 else (if events[0].Tick? then 1 else 0) + Ticks(events[1..])
  }

  // The waiters released to a key, and those accepted for it, in order.
  function Released(resolved: seq<Release>, key: string): seq<Waiter> {
    if resolved == [] then []
    else
      var last := resolved[|resolved| - 1];
      Released(resolved[..|resolved| - 1], key) + if last.key == key then [last.waiter] else []
  }

  function Accepted(accepted: seq<Acceptance>, key: string): seq<Waiter> {
    if accepted == [] then []
    else
      var last := accepted[|accepted| - 1];
      Accepted(accepted[..|accepted| - 1], key) + if last.key == key then [last.waiter] else []
  }

  lemma {:induction false} ReleasedAppend(a: seq<Release>, b: seq<Release>, key: string)
    ensures Released(a + b, key) == Released(a, key) + Released(b, key)
    decreases |b|
  {
    if b == [] {
      assert a + b == a;
    } else {
      var last := b[|b| - 1];
      assert (a + b)[..|a + b| - 1] == a + b[..|b| - 1];
      ReleasedAppend(a, b[..|b| - 1], key);
    }
  }

  lemma {:induction false} ReleasesOf(c: Config, key: string, queue: seq<Waiter>, length: int, n: nat, now: int,
                                      other: string)
    requires n <= |queue|
    ensures Released(Releases(c, key, queue, length, n, now), other) == if other == key then queue[..n] else []
  {
    if n > 0 {
      var all := Releases(c, key, queue, length, n, now);
      assert all[..|all| - 1] == Releases(c, key, queue, length, n - 1, now);
      ReleasesOf(c, key, queue, length, n - 1, now, other);
    }
  }

  // That the first `n` waiters of one queue, and no others for its key, went to `released`.
  ghost predicate Moved(b: Buckets, b': Buckets, released: seq<Release>, key: string, n: nat) {
    && b'.Valid() && b'.keys == b.keys
    && n <= |Queue(b, key)| && Queue(b', key) == Queue(b, key)[n..]
    && Released(released, key) == Queue(b, key)[..n]
  }

  lemma {:induction false} LeakOneMoves(c: Config, b: Buckets, last: string, now: int, key: string)
    requires ValidConfig(c) && b.Valid() && last in b.keys
    ensures var (b', released) := LeakOne(c, b, last, now);
            Moved(b, b', released, key, if key == last then Passed(c, Queue(b, last)) else 0)
  {
    hide Releases, ReadBack;
    assert last in b.at;
    ReleasesOf(c, last, Queue(b, last), ReadBack(b, last), Passed(c, Queue(b, last)), now, key);
  }

  lemma {:induction false} MovedOn(b: Buckets, b1: Buckets, b2: Buckets, r1: seq<Release>, r2: seq<Release>, key: string,
                                   n: nat, m: nat)
    requires Moved(b, b1, r1, key, n) && Moved(b1, b2, r2, key, m) && (n == 0 || m == 0)
    ensures Moved(b, b2, r1 + r2, key, n + m)
  {
    hide Queue, Released;
    ReleasedAppend(r1, r2, key);
    assert Queue(b, key)[..0] == [] && Queue(b1, key)[..0] == [];
    assert Released(r1, key) + [] == Released(r1, key) && [] + Released(r2, key) == Released(r2, key);
  }

  lemma {:induction false} NotMoved(b: Buckets, b1: Buckets, released: seq<Release>, key: string)
    requires Moved(b, b1, released, key, 0)
    ensures b1.Valid() && b1.keys == b.keys && Queue(b1, key) == Queue(b, key)
  {
  }

  lemma {:induction false} LeakLast(c: Config, b: Buckets, keys: seq<string>, now: int)
    requires ValidConfig(c) && keys != []
    ensures var (b1, r1) := Leak(c, b, keys[..|keys| - 1], now);
            var (b2, r2) := LeakOne(c, b1, keys[|keys| - 1], now);
            Leak(c, b, keys, now) == (b2, r1 + r2)
  {
    hide LeakOne;
  }

  // Some of the map's keys, each once.
  ghost predicate KeysOf(b: Buckets, keys: seq<string>) {
    && b.Valid() && (forall k :: k in keys ==> k in b.keys)
    && forall i, j :: 0 <= i < j < |keys| ==> keys[i] != keys[j]
  }

  lemma {:induction false} LastKey(b: Buckets, keys: seq<string>, key: string)
    requires KeysOf(b, keys) && keys != []
    ensures var before, last := keys[..|keys| - 1], keys[|keys| - 1];
            && KeysOf(b, before) && b.Valid() && last in b.keys && last !in before
            && (key in keys <==> key in before || key == last)
  {
    assert keys == keys[..|keys| - 1] + [keys[|keys| - 1]];
  }

  // One tick moves the front of each queue, and nothing else, to what is released.
  lemma {:induction false} LeakMoves(c: Config, b: Buckets, keys: seq<string>, now: int, key: string)
    requires ValidConfig(c) && KeysOf(b, keys)
    ensures var (b', released) := Leak(c, b, keys, now);
            Moved(b, b', released, key, if key in keys then Passed(c, Queue(b, key)) else 0)
    decreases |keys|
  {
    if keys == [] {
      assert Queue(b, key)[..0] == [];
    } else {
      hide Leak, LeakOne, Passed, Released, Queue, Releases, Moved, KeysOf;
      var before, last := keys[..|keys| - 1], keys[|keys| - 1];
      LastKey(b, keys, key);
      LeakLast(c, b, keys, now);
      LeakMoves(c, b, before, now, key);
      LeakMoves(c, b, before, now, last);
      var (b1, r1) := Leak(c, b, before, now);
      var (b2, r2) := LeakOne(c, b1, last, now);
      NotMoved(b, b1, r1, last);
      LeakOneMoves(c, b1, last, now, key);
      MovedOn(b, b1, b2, r1, r2, key, if key in before then Passed(c, Queue(b, key)) else 0,
              if key == last then Passed(c, Queue(b1, last)) else 0);
    }
  }

  /** The queues hold what was accepted and is not yet released, in order, and never pass the capacity. */
  ghost predicate Conserved(c: Config, s: State) {
    && s.buckets.Valid()
    && (forall key: string ::
          Released(s.resolved, key) + Queue(s.buckets, key) == Accepted(s.accepted, key))
    && (forall key: string :: |Queue(s.buckets, key)| <= c.capacity)
  }

  lemma {:induction false} StepConserved(c: Config, s: State, e: Event)
    requires ValidConfig(c) && Conserved(c, s)
    ensures Conserved(c, Next(c, s, e))
  {
    hide Leak, Admit, Released, Queue, Accepted;
    var s' := Next(c, s, e);
    match e
    case Ask(userId, token, limits) =>
      AdmitConserved(c, s, Key(userId, token), limits);
    case Tick(now) =>
      LeakMoves(c, s.buckets, s.buckets.keys, now, "");
      forall key: string
        ensures Released(s'.resolved, key) + Queue(s'.buckets, key) == Accepted(s.accepted, key)
        ensures |Queue(s'.buckets, key)| <= c.capacity
      {
        TickConserved(c, s, now, key);
      }
  }

  lemma {:induction false} TickConserved(c: Config, s: State, now: int, key: string)
    requires ValidConfig(c) && Conserved(c, s)
    ensures var s' := Next(c, s, Tick(now));
            && Released(s'.resolved, key) + Queue(s'.buckets, key) == Accepted(s.accepted, key)
            && |Queue(s'.buckets, key)| <= c.capacity
  {
    hide Leak, Released, Queue, Passed, Accepted;
    var (b, released) := Leak(c, s.buckets, s.buckets.keys, now);
    LeakMoves(c, s.buckets, s.buckets.keys, now, key);
    ReleasedAppend(s.resolved, released, key);
    var queue := Queue(s.buckets, key);
    Rejoin(Released(s.resolved, key), queue, if key in s.buckets.keys then Passed(c, queue) else 0);
  }

  lemma {:induction false} Rejoin<T>(a: seq<T>, b: seq<T>, n: nat)
    requires n <= |b|
    ensures a + b[..n] + b[n..] == a + b
  {
    assert b[..n] + b[n..] == b;
  }

  // A request is turned away by a full queue, or joins the end of its own; nothing is released.
  lemma {:induction false} AdmitEffect(c: Config, s: State, own: string, limits: QuotaLimits, key: string)
    ensures var s', waiter := Admit(c, s, own, limits), Waiter(s.tickets, limits);
            var queue := Queue(s.buckets, key);
            && s'.resolved == s.resolved && (s.buckets.Valid() ==> s'.buckets.Valid())
            && if |Queue(s.buckets, own)| >= c.capacity
               then s'.accepted == s.accepted && Queue(s'.buckets, key) == queue
               else s'.accepted == s.accepted + [Acceptance(own, waiter)]
                    && Queue(s'.buckets, key) == if key == own then queue + [waiter] else queue
  {
  }

  lemma {:induction false} AcceptedPush(accepted: seq<Acceptance>, last: Acceptance, key: string)
    ensures Accepted(accepted + [last], key)
            == if last.key == key then Accepted(accepted, key) + [last.waiter] else Accepted(accepted, key)
  {
    assert (accepted + [last])[..|accepted|] == accepted;
    assert Accepted(accepted, key) + [] == Accepted(accepted, key);
  }

  lemma {:induction false} AdmitConserved(c: Config, s: State, own: string, limits: QuotaLimits)
    requires ValidConfig(c) && Conserved(c, s)
    ensures Conserved(c, Admit(c, s, own, limits))
  {
    hide Admit, Accepted, Released;
    AdmitEffect(c, s, own, limits, "");
    var s' := Admit(c, s, own, limits);
    forall key: string
      ensures Released(s'.resolved, key) + Queue(s'.buckets, key) == Accepted(s'.accepted, key)
      ensures |Queue(s'.buckets, key)| <= c.capacity
    {
      AdmitEffect(c, s, own, limits, key);
      AcceptedPush(s.accepted, Acceptance(own, Waiter(s.tickets, limits)), key);
      assert Released(s.resolved, key) + Queue(s.buckets, key) == Accepted(s.accepted, key);
    }
  }

  /** After any run: released ++ queued == accepted for every key, and no queue over the capacity. */
  lemma {:induction false} RunConserved(c: Config, s: State, events: seq<Event>)
    requires ValidConfig(c) && Conserved(c, s)
    ensures Conserved(c, Run(c, s, events))
    decreases |events|
  {
    if events != [] {
      StepConserved(c, s, events[0]);
      RunConserved(c, Next(c, s, events[0]), events[1..]);
    }
  }

  // Tickets are given out in order, one to each accepted request.
  ghost predicate Numbered(s: State) {
    |s.accepted| == s.tickets && forall i :: 0 <= i < |s.accepted| ==> s.accepted[i].waiter.ticket == i
  }

  lemma {:induction false} RunNumbered(c: Config, s: State, events: seq<Event>)
    requires ValidConfig(c) && Numbered(s)
    ensures Numbered(Run(c, s, events))
    decreases |events|
  {
    if events != [] {
      hide Leak;
      RunNumbered(c, Next(c, s, events[0]), events[1..]);
    }
  }

  ghost predicate Rising(waiters: seq<Waiter>) {
    forall i, j :: 0 <= i < j < |waiters| ==> waiters[i].ticket < waiters[j].ticket
  }

  lemma {:induction false} AcceptedRising(accepted: seq<Acceptance>, key: string)
    requires forall i :: 0 <= i < |accepted| ==> accepted[i].waiter.ticket == i
    ensures Rising(Accepted(accepted, key))
    ensures forall w :: w in Accepted(accepted, key) ==> w.ticket < |accepted|
    decreases |accepted|
  {
    if accepted != [] {
      AcceptedRising(accepted[..|accepted| - 1], key);
    }
  }

  /** No accepted request is released twice, nor released and still queued: the tickets rise along both. */
  lemma {:induction false} NoneTwice(c: Config, events: seq<Event>, key: string)
    requires ValidConfig(c)
    ensures var s := Run(c, Init, events); Rising(Released(s.resolved, key) + Queue(s.buckets, key))
  {
    hide Rising;
    RunNumbered(c, Init, events);
    FifoFromEmpty(c, events, key);
    AcceptedRising(Run(c, Init, events).accepted, key);
  }

  /** In particular from the empty map. */
  lemma {:induction false} FifoFromEmpty(c: Config, events: seq<Event>, key: string)
    requires ValidConfig(c)
    ensures var s := Run(c, Init, events);
            && Released(s.resolved, key) + Queue(s.buckets, key) == Accepted(s.accepted, key)
            && |Queue(s.buckets, key)| <= c.capacity
  {
    assert forall k: string :: Released([], k) + [] == Accepted([], k);
    RunConserved(c, Init, events);
  }

  // ----- Latency -----

  lemma {:induction false} DivStep(p: nat, leaks: int)
    requires 1 <= leaks <= p
    ensures p / leaks >= 1 && (p - leaks) / leaks == p / leaks - 1
  {
    var q := p / leaks;
    assert p == leaks * q + p % leaks;
    assert leaks * (q - 1) == leaks * q - leaks;
    DivUnique(p - leaks, leaks, q - 1);
  }

  lemma {:induction false} DivUnique(p: nat, leaks: int, q: int)
    requires 1 <= leaks && leaks * q <= p < leaks * q + leaks
    ensures p / leaks == q
  {
    var q' := p / leaks;
    assert p == leaks * q' + p % leaks;
    if q < q' {
      MulSpread(leaks, q', q);
    } else if q' < q {
      MulSpread(leaks, q, q');
    }
  }

  lemma {:induction false} MulSpread(leaks: int, more: int, less: int)
    requires 1 <= leaks && less < more
    ensures leaks * more >= leaks * less + leaks
  {
    var d := more - less - 1;
    assert leaks * more == leaks * less + leaks + leaks * d;
    assert leaks * d >= 0;
  }

  // How far a queued request has come after `ticks` ticks: its place in the queue, or released.
  ghost predicate StandsAt(s: State, s': State, key: string, p: nat, place: int)
    requires p < |Queue(s.buckets, key)|
  {
    var waiter := Queue(s.buckets, key)[p];
    if place >= 0 then
      place < |Queue(s'.buckets, key)| && Queue(s'.buckets, key)[place] == waiter
    else
      var i := |Released(s.resolved, key)| + p;
      i < |Released(s'.resolved, key)| && Released(s'.resolved, key)[i] == waiter
  }

  lemma {:induction false} ReleasedGrows(c: Config, s: State, events: seq<Event>, key: string)
    requires ValidConfig(c) && Conserved(c, s)
    ensures Released(s.resolved, key) <= Released(Run(c, s, events).resolved, key)
    decreases |events|
  {
    hide Leak, Admit;
    if events != [] {
      StepConserved(c, s, events[0]);
      ReleasedGrows(c, Next(c, s, events[0]), events[1..], key);
      match events[0]
      case Ask(userId, token, limits) => AdmitEffect(c, s, Key(userId, token), limits, key);
      case Tick(now) => ReleasedAppend(s.resolved, Leak(c, s.buckets, s.buckets.keys, now).1, key);
    }
  }

  // One event moves a queued request forward by the leaks of a tick, and by nothing else.
  lemma {:induction false} StepMoves(c: Config, s: State, e: Event, key: string, p: nat)
    requires ValidConfig(c) && Conserved(c, s) && p < |Queue(s.buckets, key)|
    ensures StandsAt(s, Next(c, s, e), key, p, if e.Tick? then p - c.leaksPerSecond else p)
    ensures e.Ask? || p >= c.leaksPerSecond ==>
              |Released(Next(c, s, e).resolved, key)|
              == |Released(s.resolved, key)| + (if e.Tick? then c.leaksPerSecond else 0)
  {
    hide Leak, Admit, Released;
    match e
    case Ask(userId, token, limits) =>
      AdmitEffect(c, s, Key(userId, token), limits, key);
    case Tick(now) =>
      assert key in s.buckets.keys;
      LeakMoves(c, s.buckets, s.buckets.keys, now, key);
      ReleasedAppend(s.resolved, Leak(c, s.buckets, s.buckets.keys, now).1, key);
  }

  // Where a request queued behind `p` others stands after `ticks` ticks.
  function Place(c: Config, p: nat, ticks: nat): int
    requires ValidConfig(c)
  {
    if ticks <= p / c.leaksPerSecond then p - ticks * c.leaksPerSecond else -1
  }

  lemma {:induction false} PlaceStep(c: Config, p: nat, ticks: nat)
    requires ValidConfig(c)
    ensures Place(c, p, 0) == p
    ensures p < c.leaksPerSecond ==> Place(c, p, ticks + 1) == -1
    ensures p >= c.leaksPerSecond ==> Place(c, p, ticks + 1) == Place(c, p - c.leaksPerSecond, ticks)
  {
    assert p / c.leaksPerSecond >= 0;
    if p >= c.leaksPerSecond {
      DivStep(p, c.leaksPerSecond);
      assert (ticks + 1) * c.leaksPerSecond == ticks * c.leaksPerSecond + c.leaksPerSecond;
    } else {
      DivUnique(p, c.leaksPerSecond, 0);
    }
  }

  lemma {:induction false} StandsThen(s: State, s1: State, s2: State, key: string, p: nat, p1: nat, place: int)
    requires p < |Queue(s.buckets, key)| && StandsAt(s, s1, key, p, p1)
    requires StandsAt(s1, s2, key, p1, place)
    requires |Released(s1.resolved, key)| + p1 == |Released(s.resolved, key)| + p
    ensures StandsAt(s, s2, key, p, place)
  {
  }

  lemma {:induction false} StandsStill(s: State, key: string, p: nat)
    requires p < |Queue(s.buckets, key)|
    ensures StandsAt(s, s, key, p, p)
  {
  }

  lemma {:induction false} StaysReleased(s: State, s1: State, s2: State, key: string, p: nat, place: int)
    requires p < |Queue(s.buckets, key)| && place < 0 && StandsAt(s, s1, key, p, place)
    requires Released(s1.resolved, key) <= Released(s2.resolved, key)
    ensures StandsAt(s, s2, key, p, -1)
  {
  }

  // One event: the place it leaves a queued request at, if that is still in the queue, and what it released before it.
  lemma {:induction false} Advance(c: Config, s: State, e: Event, key: string, p: nat) returns (p1: int)
    requires ValidConfig(c) && Conserved(c, s) && p < |Queue(s.buckets, key)|
    ensures Conserved(c, Next(c, s, e)) && StandsAt(s, Next(c, s, e), key, p, p1)
    ensures p1 == if e.Tick? then p - c.leaksPerSecond else p
    ensures 0 <= p1 ==>
              && p1 < |Queue(Next(c, s, e).buckets, key)|
              && |Released(Next(c, s, e).resolved, key)| + p1 == |Released(s.resolved, key)| + p
  {
    hide Next, Conserved, Released, Queue;
    StepConserved(c, s, e);
    StepMoves(c, s, e, key, p);
    p1 := if e.Tick? then p - c.leaksPerSecond else p;
  }

  /**
   A request queued behind `p` others is still queued, `leaksPerSecond` places further on for each tick, until its
   (p / leaksPerSecond + 1)-th tick, and has been released from that tick on.
   */
  lemma {:induction false} ResolvesOnTick(c: Config, s: State, events: seq<Event>, key: string, p: nat)
    requires ValidConfig(c) && Conserved(c, s) && p < |Queue(s.buckets, key)|
    ensures StandsAt(s, Run(c, s, events), key, p, Place(c, p, Ticks(events)))
    decreases |events|
  {
    hide Next, Conserved, StandsAt, Place, Released, Queue;
    PlaceStep(c, p, 0);
    if events == [] {
      StandsStill(s, key, p);
    } else {
      var s1, rest := Next(c, s, events[0]), events[1..];
      var p1 := Advance(c, s, events[0], key, p);
      PlaceStep(c, p, Ticks(rest));
      if p1 < 0 {
        ReleasedGrows(c, s1, rest, key);
        StaysReleased(s, s1, Run(c, s1, rest), key, p, p1);
      } else {
        ResolvesOnTick(c, s1, rest, key, p1);
        StandsThen(s, s1, Run(c, s1, rest), key, p, p1, Place(c, p1, Ticks(rest)));
      }
    }
  }

  // ----- Reports -----

  // Every release of this key reports what the queue had left, plus one for each request released so far.
  ghost predicate Reports(released: seq<Release>, key: string, c: Config, length: int, now: int) {
    forall i :: 0 <= i < |released| && released[i].key == key ==>
      Tells(c, released[i].summary, released[i].waiter.limits, c.capacity - length + |Released(released[..i + 1], key)|,
            Some(now + 1000))
  }

  /**
   With colon-free ids, the i-th request released from a queue of n reports n - i places taken: between 1 and the
   capacity are left, and the last one released reports what is left right after the tick.
   */
  lemma {:induction false} TickReports(c: Config, s: State, now: int, userId: string, token: string)
    requires ValidConfig(c) && Conserved(c, s) && ':' !in userId && ':' !in token
    ensures var key := Key(userId, token);
            var (b, released) := Leak(c, s.buckets, s.buckets.keys, now);
            var queue := Queue(s.buckets, key);
            && Reports(released, key, c, |queue|, now)
            && |queue| <= c.capacity && |Released(released, key)| <= |queue|
            && c.capacity - |queue| + |Released(released, key)| == c.capacity - |Queue(b, key)|
  {
    hide Leak, Released, Reports;
    var key := Key(userId, token);
    ReverseKeyIff(userId, token);
    LeakMoves(c, s.buckets, s.buckets.keys, now, key);
    LeakReports(c, s.buckets, s.buckets.keys, now, key);
  }

  // Whatever its key, each release is told in numbers that agree over the four windows, and a reset in a second.
  ghost predicate AllTell(c: Config, released: seq<Release>, now: int) {
    forall i :: 0 <= i < |released| ==>
      Tells(c, released[i].summary, released[i].waiter.limits, released[i].summary.perSecond.remaining, Some(now + 1000))
  }

  lemma {:induction false} ReleasesTell(c: Config, key: string, queue: seq<Waiter>, length: int, n: nat, now: int)
    requires n <= |queue|
    ensures AllTell(c, Releases(c, key, queue, length, n, now), now)
  {
    forall i | 0 <= i < n ensures Tells(c, Summary(c, queue[i].limits, length, i + 1, Some(now + 1000)), queue[i].limits,
                                        c.capacity - length + i + 1, Some(now + 1000))
    {
      SummaryTells(c, queue[i].limits, length, i + 1, Some(now + 1000));
    }
  }

  lemma {:induction false} TickTells(c: Config, b: Buckets, keys: seq<string>, now: int)
    requires ValidConfig(c)
    ensures AllTell(c, Leak(c, b, keys, now).1, now)
    decreases |keys|
  {
    if keys != [] {
      hide LeakOne, Releases, Tells;
      TickTells(c, b, keys[..|keys| - 1], now);
      var b1 := Leak(c, b, keys[..|keys| - 1], now).0;
      var n := LeakOneReleases(c, b1, keys[|keys| - 1], now);
      ReleasesTell(c, keys[|keys| - 1], Queue(b1, keys[|keys| - 1]), ReadBack(b1, keys[|keys| - 1]), n, now);
    }
  }

  lemma {:induction false} ReadsItself(b: Buckets, key: string)
    requires var (userId, token) := ReverseKey(key); Key(userId, token) == key
    ensures ReadBack(b, key) == |Queue(b, key)|
  {
  }

  lemma {:induction false} ReportsAppend(c: Config, r1: seq<Release>, r2: seq<Release>, n: nat, key: string,
                                         queue: seq<Waiter>, last: string, length: int, read: int, now: int)
    requires ValidConfig(c) && Reports(r1, key, c, length, now)
    requires n <= |queue| && r2 == Releases(c, last, queue, read, n, now)
    requires last == key ==> Released(r1, key) == [] && read == length
    ensures Reports(r1 + r2, key, c, length, now)
  {
    hide Released, Summary, Tells;
    var released := r1 + r2;
    forall i | 0 <= i < |released| && released[i].key == key
      ensures Tells(c, released[i].summary, released[i].waiter.limits,
                    c.capacity - length + |Released(released[..i + 1], key)|, Some(now + 1000))
    {
      if i < |r1| {
        assert released[..i + 1] == r1[..i + 1];
      } else {
        var j := i - |r1|;
        assert released[..i + 1] == r1 + r2[..j + 1];
        ReleasedAppend(r1, r2[..j + 1], key);
        assert r2[..j + 1] == Releases(c, last, queue, read, j + 1, now);
        ReleasesOf(c, last, queue, read, j + 1, now, key);
        SummaryTells(c, queue[j].limits, read, j + 1, Some(now + 1000));
      }
    }
  }

  lemma {:induction false} LeakOneReleases(c: Config, b: Buckets, key: string, now: int) returns (n: nat)
    requires ValidConfig(c)
    ensures n <= |Queue(b, key)|
    ensures LeakOne(c, b, key, now).1 == Releases(c, key, Queue(b, key), ReadBack(b, key), n, now)
  {
    n := Passed(c, Queue(b, key));
  }

  lemma {:induction false} LeakReports(c: Config, b: Buckets, keys: seq<string>, now: int, key: string)
    requires ValidConfig(c) && b.Valid()
    requires forall i, j :: 0 <= i < j < |keys| ==> keys[i] != keys[j]
    requires forall k :: k in keys ==> k in b.at
    requires var (userId, token) := ReverseKey(key); Key(userId, token) == key
    ensures Reports(Leak(c, b, keys, now).1, key, c, |Queue(b, key)|, now)
    decreases |keys|
  {
    if keys != [] {
      hide Released, Passed, ReverseKey, Key, Summary, Reports, LeakOne, Queue, ReadBack, Releases;
      var before, last := keys[..|keys| - 1], keys[|keys| - 1];
      assert keys == before + [last];
      assert last !in before;
      LeakReports(c, b, before, now, key);
      LeakMoves(c, b, before, now, key);
      var (b1, r1) := Leak(c, b, before, now);
      ReadsItself(b1, key);
      var n := LeakOneReleases(c, b1, last, now);
      ReportsAppend(c, r1, LeakOne(c, b1, last, now).1, n, key, Queue(b1, last), last, |Queue(b, key)|,
                    ReadBack(b1, last), now);
    }
  }

  lemma {:induction false} PiecesPlain(s: string)
    ensures forall i :: 0 <= i < |Split(s)| ==> ':' !in Split(s)[i]
  {
    if s != "" {
      PiecesPlain(s[1..]);
    }
  }

  // A key made of ids with a colon is not the one its pieces make.
  lemma {:induction false} ColonMisreads(userId: string, token: string)
    requires ':' in userId || ':' in token
    ensures var key := Key(userId, token); var (u, t) := ReverseKey(key); Key(u, t) != key
  {
    var key := Key(userId, token);
    var (u, t) := ReverseKey(key);
    PiecesPlain(key);
    if Key(u, t) == key {
      Pairs.SamePair(userId, token, u, t);
    }
  }

  /** With a colon in either id the first request ever released reports one place more than the capacity. */
  lemma {:induction false} ColonOverreports(c: Config, userId: string, token: string, limits: QuotaLimits, now: int)
    requires ValidConfig(c) && (':' in userId || ':' in token)
    ensures var key := Key(userId, token);
            var b := Admit(c, Init, key, limits).buckets;
            && b.keys == [key] && |Queue(b, key)| == 1
            && LeakOne(c, b, key, now).1 == [Release(key, Waiter(0, limits), Summary(c, limits, 0, 1, Some(now + 1000)))]
            && Tells(c, Summary(c, limits, 0, 1, Some(now + 1000)), limits, c.capacity + 1, Some(now + 1000))
  {
    hide ReverseKey, Key, Admit;
    var key := Key(userId, token);
    ColonMisreads(userId, token);
    AdmitFirst(c, key, limits);
    assert ReadBack(Admit(c, Init, key, limits).buckets, key) == 0;
  }

  lemma {:induction false} AdmitFirst(c: Config, key: string, limits: QuotaLimits)
    requires ValidConfig(c)
    ensures Admit(c, Init, key, limits).buckets == OrderedMap([key], map[key := [Waiter(0, limits)]])
  {
    hide Admit;
    AdmitIs(c, Init, key, limits);
    assert Queue(Init.buckets, key) == [] && [] + [Waiter(0, limits)] == [Waiter(0, limits)];
    SetFirst<seq<Waiter>>(key, [], [Waiter(0, limits)]);
  }

  lemma {:induction false} SetFirst<V>(key: string, v: V, w: V)
    ensures Empty().Set(key, v).Set(key, w) == OrderedMap([key], map[key := w])
  {
    assert [] + [key] == [key];
    assert map[key := v][key := w] == map[key := w];
  }

  ghost predicate ReportsRight(c: Config, s: State, now: int, key: string)
    requires ValidConfig(c)
  {
    Reports(Leak(c, s.buckets, s.buckets.keys, now).1, key, c, |Queue(s.buckets, key)|, now)
  }

  /** The reports to a pair are right, on every tick and whatever is queued, exactly when its ids hold no colon. */
  lemma {:induction false} ReportsRightIff(c: Config, userId: string, token: string)
    requires ValidConfig(c)
    ensures (forall s: State, now: int :: Conserved(c, s) ==> ReportsRight(c, s, now, Key(userId, token)))
            <==> ':' !in userId && ':' !in token
  {
    hide Leak, Conserved, Reports, Admit, Key, ReportsRight;
    if ':' !in userId && ':' !in token {
      forall s: State, now: int | Conserved(c, s) ensures ReportsRight(c, s, now, Key(userId, token)) {
        TickReportsRight(c, s, now, userId, token);
      }
    } else {
      ReportedWrong(c, userId, token, QuotaLimits(1, 1, 1, 1));
    }
  }

  lemma {:induction false} TickReportsRight(c: Config, s: State, now: int, userId: string, token: string)
    requires ValidConfig(c) && Conserved(c, s) && ':' !in userId && ':' !in token
    ensures ReportsRight(c, s, now, Key(userId, token))
  {
    hide Leak, Reports;
    TickReports(c, s, now, userId, token);
  }

  lemma {:induction false} ReportedWrong(c: Config, userId: string, token: string, limits: QuotaLimits)
    requires ValidConfig(c) && (':' in userId || ':' in token)
    ensures var key := Key(userId, token);
            Conserved(c, Admit(c, Init, key, limits)) && !ReportsRight(c, Admit(c, Init, key, limits), 0, key)
  {
    hide LeakOne, Admit, Key, Conserved;
    var key := Key(userId, token);
    var s := Admit(c, Init, key, limits);
    assert Conserved(c, Init) by { InitConserved(c); }
    AdmitConserved(c, Init, key, limits);
    ColonOverreports(c, userId, token, limits, 0);
    var summary := Summary(c, limits, 0, 1, Some(1000));
    var released := [Release(key, Waiter(0, limits), summary)];
    LeakSingle(c, s.buckets, key, 0, released);
    assert released[..1] == [] + [released[0]];
    ReleasedSingle(released[0]);
    assert !Tells(c, summary, limits, c.capacity, Some(1000));
  }

  lemma {:induction false} InitConserved(c: Config)
    requires ValidConfig(c)
    ensures Conserved(c, Init)
  {
  }

  lemma {:induction false} LeakSingle(c: Config, b: Buckets, key: string, now: int, released: seq<Release>)
    requires ValidConfig(c) && b.keys == [key] && LeakOne(c, b, key, now).1 == released
    ensures Leak(c, b, b.keys, now).1 == released
  {
    hide LeakOne;
    assert [key][..0] == [];
    assert Leak(c, b, [], now) == (b, []);
    assert [] + released == released;
  }

  lemma {:induction false} ReleasedSingle(release: Release)
    ensures |Released([] + [release], release.key)| == 1
  {
    assert ([] + [release])[..0] == [];
  }

  // ----- The algorithm itself -----

  class LeakyBucketAlgorithm {
    const config: Config
    var buckets: Buckets
    var tickets: nat
    var resolved: seq<Release>
    ghost var accepted: seq<Acceptance>

    ghost predicate Valid()
      reads this
    {
      ValidConfig(config) && Conserved(config, Model())
    }

    ghost function Model(): State
      reads this
    {
      State(buckets, tickets, accepted, resolved)
    }

    constructor (config: Config)
      requires ValidConfig(config)
      ensures this.config == config && Model() == Init && Valid()
    {
      this.config := config;
      buckets := Empty();
      tickets, resolved, accepted := 0, [], [];
      new;
      assert forall key: string :: Released([], key) + Queue(Empty(), key) == Accepted([], key);
    }

    /** A configuration is refused, for its capacity first, exactly when a bucket or its leak would hold nothing. */
    static method Create(config: Config) returns (bucket: LeakyBucketAlgorithm?, error: Option<InvalidConfiguration>)
      ensures bucket != null <==> ValidConfig(config)
      ensures bucket != null ==> fresh(bucket) && bucket.Valid() && bucket.config == config && bucket.Model() == Init
      ensures error == if config.capacity < 1 then Some(CapacityTooSmall)
                       else if config.leaksPerSecond < 1 then Some(LeaksTooSmall) else None
    {
      if config.capacity < 1 {
        return null, Some(CapacityTooSmall);
      }
      if config.leaksPerSecond < 1 {
        return null, Some(LeaksTooSmall);
      }
      bucket := new LeakyBucketAlgorithm(config);
      error := None;
    }

    /** `request` up to its await: the ticket names the promise that a later tick settles. */
    method Request(userId: string, token: string, limits: QuotaLimits) returns (ticket: Result<nat, TooManyRequests>)
      requires Valid()
      modifies this
      ensures Valid() && Model() == Admit(config, old(Model()), Key(userId, token), limits)
      ensures ticket == if |Queue(old(buckets), Key(userId, token))| >= config.capacity
                        then Failure(TooManyRequests) else Success(old(tickets))
    {
      AdmitConserved(config, Model(), Key(userId, token), limits);
      hide Conserved, Admit, Queue;
      var key := userId + ":" + token;
      AdmitIs(config, Model(), key, limits);
      if key !in buckets.at {
        buckets := buckets.Set(key, []);
      }
      if |buckets.at[key]| >= config.capacity {
        return Failure(TooManyRequests);
      }
      var waiter := Waiter(tickets, limits);
      buckets, tickets := buckets.Set(key, buckets.at[key] + [waiter]), tickets + 1;
      accepted := accepted + [Acceptance(key, waiter)];
      return Success(waiter.ticket);
    }

    method CalculateRemaining(userId: string, token: string)
      returns (perSecond: int, perMinute: int, perHour: int, perDay: int)
      ensures var length := |Queue(buckets, Key(userId, token))|;
              && perSecond == Remaining(config, Second, length) && perMinute == Remaining(config, Minute, length)
              && perHour == Remaining(config, Hour, length) && perDay == Remaining(config, Day, length)
    {
      var key := userId + ":" + token;
      if key !in buckets.at {
        return config.capacity,
               config.leaksPerSecond * 60 + config.capacity,
               config.leaksPerSecond * 60 * 60 + config.capacity,
               config.leaksPerSecond * 60 * 60 * 24 + config.capacity;
      }
      var length := |buckets.at[key]|;
      return config.capacity - length,
             config.leaksPerSecond * 60 + config.capacity - length,
             config.leaksPerSecond * 60 * 60 + config.capacity - length,
             config.leaksPerSecond * 60 * 60 * 24 + config.capacity - length;
    }

    method GetQuota(userId: string, token: string, limits: QuotaLimits, now: int) returns (summary: QuotaSummary)
      ensures var key := Key(userId, token);
              Tells(config, summary, limits, config.capacity - |Queue(buckets, key)|,
                    if key in buckets.at then Some(now + 1000) else None)
    {
      var perSecond, perMinute, perHour, perDay := CalculateRemaining(userId, token);
      var reset := if userId + ":" + token in buckets.at then Some(now + 1000) else None;
      summary := QuotaSummary(Quota(limits.perSecond, perSecond, reset), Quota(limits.perMinute, perMinute, reset),
                              Quota(limits.perHour, perHour, reset), Quota(limits.perDay, perDay, reset));
    }

    /** The timer's handler. */
    method Tick(now: int)
      requires Valid()
      modifies this`buckets, this`resolved
      ensures Valid() && Model() == Next(config, old(Model()), Event.Tick(now))
      ensures old(resolved) <= resolved && AllTell(config, resolved[|old(resolved)|..], now)
    {
      StepConserved(config, Model(), Event.Tick(now));
      TickTells(config, buckets, buckets.keys, now);
      hide Conserved, Leak;
      LeakQueues(now);
    }

    method LeakQueues(now: int)
      requires ValidConfig(config)
      modifies this`buckets, this`resolved
      ensures buckets == Leak(config, old(buckets), old(buckets).keys, now).0
      ensures resolved == old(resolved) + Leak(config, old(buckets), old(buckets).keys, now).1
    {
      hide LeakOne;
      var keys := buckets.keys;
      assert keys[..0] == [] && resolved + [] == resolved;
      for i := 0 to |keys|
        invariant buckets == Leak(config, old(buckets), keys[..i], now).0
        invariant resolved == old(resolved) + Leak(config, old(buckets), keys[..i], now).1
      {
        assert keys[..i + 1][..i] == keys[..i];
        LeakOneAppend(config, old(buckets), keys[..i + 1], now, old(resolved));
        LeakQueue(keys[i], now);
      }
      assert keys[..|keys|] == keys;
    }

    // One key of the handler's loop.
    method LeakQueue(key: string, now: int)
      requires ValidConfig(config)
      modifies this`buckets, this`resolved
      ensures buckets == LeakOne(config, old(buckets), key, now).0
      ensures resolved == old(resolved) + LeakOne(config, old(buckets), key, now).1
    {
      var requests := if key in buckets.at then buckets.at[key] else [];
      if |requests| == 0 {
        assert resolved + [] == resolved;
        return;
      }
      var (userId, token) := ReverseKey(key);
      var perSecond, perMinute, perHour, perDay := CalculateRemaining(userId, token);
      ghost var length := ReadBack(buckets, key);
      var passed := 0;
      assert resolved + Releases(config, key, requests, length, 0, now) == resolved;
      while passed < |requests|
        invariant passed <= Passed(config, requests) && buckets == old(buckets)
        invariant resolved == old(resolved) + Releases(config, key, requests, length, passed, now)
      {
        if passed >= config.leaksPerSecond {
          break;
        }
        var Waiter(ticket, limits) := requests[passed];
        passed := passed + 1;
        var reset := Some(now + 1000);
        var summary := QuotaSummary(Quota(limits.perSecond, perSecond + passed, reset),
                                    Quota(limits.perMinute, perMinute + passed, reset),
                                    Quota(limits.perHour, perHour + passed, reset),
                                    Quota(limits.perDay, perDay + passed, reset));
        resolved := resolved + [Release(key, Waiter(ticket, limits), summary)];
        assert Releases(config, key, requests, length, passed, now)
               == Releases(config, key, requests, length, passed - 1, now)
                  + [Release(key, requests[passed - 1], summary)];
      }
      assert passed == Passed(config, requests);
      buckets := buckets.Set(key, requests[passed..]);
    }

    /** Everything queued is forgotten and its promises never settle. */
    method Stop()
      modifies this`buckets
      ensures buckets == Empty()
    {
      buckets := Empty();
    }
  }

  lemma {:induction false} LeakOneAppend(c: Config, b: Buckets, keys: seq<string>, now: int, resolved: seq<Release>)
    requires ValidConfig(c) && keys != []
    ensures var before := Leak(c, b, keys[..|keys| - 1], now);
            var one := LeakOne(c, before.0, keys[|keys| - 1], now);
            && Leak(c, b, keys, now) == (one.0, before.1 + one.1)
            && resolved + Leak(c, b, keys, now).1 == (resolved + before.1) + one.1
  {
    hide LeakOne;
    var before := Leak(c, b, keys[..|keys| - 1], now).1;
    var one := LeakOne(c, Leak(c, b, keys[..|keys| - 1], now).0, keys[|keys| - 1], now).1;
    assert resolved + (before + one) == (resolved + before) + one;
  }
}
