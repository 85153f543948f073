/**
 The token bucket as a machine of atomic store commands. A request first increments its key's counter; when the
 answer passes the capacity it rolls back with a second command. Ticks lower every stored counter by the fill rate
 and clamp it at zero. Commands of different requests and ticks interleave in any order.
 */
module TokenBucket {
  import Pairs
  import opened Quotas
  import opened Sums
  import opened Wrappers

  datatype Config = Config(capacity: nat, fillRate: nat)

  datatype Phase = Asking | RollingBack | Admitted | Rejected

  datatype Request = Request(key: string, score: nat, phase: Phase)

  datatype State = State(counters: map<string, int>, requests: seq<Request>)

  datatype Event = Arrive(key: string, score: nat) | Command(id: nat) | Tick

  const Init := State(map[], [])

  // A missing key counts as zero, both for GET and for INCRBY.
  function Consumed(counters: map<string, int>, key: string): int {
    if key in counters then counters[key] else 0
  }

  // The Lua script: DECRBY on every key, then SET 0 where the result is negative.
  function Refilled(counters: map<string, int>, fillRate: nat): map<string, int> {
    map key | key in counters :: if counters[key] - fillRate < 0 then 0 else counters[key] - fillRate
  }

  function Next(c: Config, s: State, e: Event): State {
    match e
    case Arrive(key, score) => s.(requests := s.requests + [Request(key, score, Asking)])
    case Tick => s.(counters := Refilled(s.counters, c.fillRate))
    case Command(id) =>
      if id >= |s.requests| then s else
      var r := s.requests[id];
      match r.phase
      case Asking =>
        var consumed := Consumed(s.counters, r.key) + r.score;
        State(s.counters[r.key := consumed],
              s.requests[id := r.(phase := if consumed > c.capacity then RollingBack else Admitted)])
      case RollingBack =>
        State(s.counters[r.key := Consumed(s.counters, r.key) - r.score], s.requests[id := r.(phase := Rejected)])
      case _ => s
  }

  function Run(c: Config, s: State, events: seq<Event>): State
    decreases events
  {
    if events == [] then s else Run(c, Next(c, s, events[0]), events[1..])
  }

  function Ticks(events: seq<Event>): nat {
    if events == [] then 0 else (if events[0].Tick? then 1 else 0) + Ticks(events[1..])
  }

  function FilledBy(c: Config, events: seq<Event>): nat {
    if events == [] then 0 else (if events[0].Tick? then c.fillRate else 0) + FilledBy(c, events[1..])
  }

  lemma {:induction false} FilledByTicks(c: Config, events: seq<Event>)
    ensures FilledBy(c, events) == Ticks(events) * c.fillRate
  {
    if events != [] {
      FilledByTicks(c, events[1..]);
      var n := Ticks(events[1..]);
      assert (1 + n) * c.fillRate == c.fillRate + n * c.fillRate;
    }
  }

  function AdmittedTo(key: string): Request -> int {
    (r: Request) => if r.key == key && r.phase == Admitted then r.score else 0
  }

  function AwaitingOn(key: string): Request -> int {
    (r: Request) => if r.key == key && r.phase == RollingBack then r.score else 0
  }

  function TotalAdmitted(s: State, key: string): int {
    SumBy(s.requests, AdmittedTo(key))
  }

  function Awaiting(s: State, key: string): (total: int)
    ensures 0 <= total
  {
    SumNonNegative(s.requests, AwaitingOn(key));
    SumBy(s.requests, AwaitingOn(key))
  }

  // What the counter would read once every pending rollback has landed.
  function Settled(s: State, key: string): int {
    Consumed(s.counters, key) - Awaiting(s, key)
  }

  lemma {:induction false} RunAppend(c: Config, s: State, first: seq<Event>, second: seq<Event>)
    ensures Run(c, s, first + second) == Run(c, Run(c, s, first), second)
    ensures Ticks(first + second) == Ticks(first) + Ticks(second)
    decreases first
  {
    if first == [] {
      assert first + second == second;
    } else {
      assert (first + second)[1..] == first[1..] + second;
      RunAppend(c, Next(c, s, first[0]), first[1..], second);
    }
  }

  // What a command adds to its counter is what it admits and what it leaves to be rolled back.
  lemma {:induction false} CommandCounts(c: Config, s: State, id: nat, key: string)
    requires id < |s.requests|
    ensures var s' := Next(c, s, Command(id));
            && |s'.requests| == |s.requests| && s'.requests == s.requests[id := s'.requests[id]]
            && var r, r' := s.requests[id], s'.requests[id];
               var admitted := AdmittedTo(key)(r') - AdmittedTo(key)(r);
               && 0 <= admitted
               && (0 < admitted ==> Consumed(s'.counters, key) <= c.capacity)
               && Consumed(s'.counters, key)
                  == Consumed(s.counters, key) + admitted + AwaitingOn(key)(r') - AwaitingOn(key)(r)
  {
    assert s.requests[id := s.requests[id]] == s.requests;
  }

  lemma {:induction false} RefilledLess(counters: map<string, int>, fillRate: nat, key: string)
    ensures Consumed(Refilled(counters, fillRate), key) >= Consumed(counters, key) - fillRate
  {
  }

  /** A tick keeps every key, and lowers each counter by the fill rate, though not below zero. */
  lemma {:induction false} TickRefills(c: Config, s: State)
    ensures var s' := Next(c, s, Tick);
            && s'.requests == s.requests && s'.counters.Keys == s.counters.Keys
            && forall key :: key in s.counters ==>
                 0 <= s'.counters[key] && s.counters[key] - c.fillRate <= s'.counters[key]
                 && (s'.counters[key] == 0 || s'.counters[key] == s.counters[key] - c.fillRate)
  {
  }

  // One step: an admission raises the settled counter by what it admits and leaves it within the capacity; nothing
  // but a tick lowers the settled counter, and a tick by no more than the fill rate.
  lemma {:induction false} StepEffect(c: Config, s: State, e: Event, key: string)
    ensures var s' := Next(c, s, e);
            var admitted := TotalAdmitted(s', key) - TotalAdmitted(s, key);
            && 0 <= admitted
            && (0 < admitted ==> Settled(s', key) <= c.capacity)
            && Settled(s', key) >= Settled(s, key) + admitted - (if e.Tick? then c.fillRate else 0)
  {
    hide AdmittedTo, AwaitingOn, Consumed, Refilled, SumBy;
    match e
    case Arrive(k, score) =>
      var r := Request(k, score, Asking);
      SumPush(s.requests, r, AdmittedTo(key));
      SumPush(s.requests, r, AwaitingOn(key));
      assert AdmittedTo(key)(r) == AwaitingOn(key)(r) == 0 by { AskingCounts(r, key); }
    case Tick => RefilledLess(s.counters, c.fillRate, key);
    case Command(id) =>
      if id < |s.requests| {
        hide Next;
        CommandCounts(c, s, id, key);
        var r := Next(c, s, e).requests[id];
        SumUpdate(s.requests, id, r, AdmittedTo(key));
        SumUpdate(s.requests, id, r, AwaitingOn(key));
      }
  }

  lemma {:induction false} AskingCounts(r: Request, key: string)
    requires r.phase == Asking
    ensures AdmittedTo(key)(r) == 0 && AwaitingOn(key)(r) == 0
  {
  }

  /** Any stretch of any interleaving admits at most the capacity, plus the refills, minus what is already settled. */
  lemma {:induction false} StretchBound(c: Config, s: State, events: seq<Event>, key: string)
    ensures var admitted := TotalAdmitted(Run(c, s, events), key) - TotalAdmitted(s, key);
            var room := c.capacity + FilledBy(c, events) - Settled(s, key);
            admitted <= if room < 0 then 0 else room
    decreases events
  {
    if events != [] {
      StepEffect(c, s, events[0], key);
      StretchBound(c, Next(c, s, events[0]), events[1..], key);
    }
  }

  /** From an empty store, every interleaving admits at most capacity + ticks * fillRate. */
  lemma {:induction false} AdmittedBound(c: Config, events: seq<Event>, key: string)
    ensures TotalAdmitted(Run(c, Init, events), key) <= c.capacity + Ticks(events) * c.fillRate
  {
    StretchBound(c, Init, events, key);
    FilledByTicks(c, events);
  }

  // ----- When the same bound holds for what follows a given state -----

  ghost predicate StretchSafe(c: Config, s: State, key: string) {
    forall events: seq<Event> ::
      TotalAdmitted(Run(c, s, events), key) - TotalAdmitted(s, key) <= c.capacity + Ticks(events) * c.fillRate
  }

  // The commands that land every pending rollback on a key.
  lemma {:induction false} Drain(c: Config, s: State, key: string) returns (events: seq<Event>)
    ensures var s' := Run(c, s, events);
            && Ticks(events) == 0
            && Awaiting(s', key) == 0
            && Consumed(s'.counters, key) == Settled(s, key)
            && TotalAdmitted(s', key) == TotalAdmitted(s, key)
    decreases Awaiting(s, key)
  {
    if id :| 0 <= id < |s.requests| && AwaitingOn(key)(s.requests[id]) != 0 {
      var s1 := Next(c, s, Command(id));
      SumUpdate(s.requests, id, s1.requests[id], AdmittedTo(key));
      SumUpdate(s.requests, id, s1.requests[id], AwaitingOn(key));
      var rest := Drain(c, s1, key);
      events := [Command(id)] + rest;
      assert events[1..] == rest;
    } else {
      events := [];
      SumAllZero(s.requests, AwaitingOn(key));
    }
  }

  lemma {:induction false} SumAllZero(requests: seq<Request>, weight: Request -> int)
    requires forall id :: 0 <= id < |requests| ==> weight(requests[id]) == 0
    ensures SumBy(requests, weight) == 0
  {
    if requests != [] {
      SumAllZero(requests[1..], weight);
    }
  }

  // With nothing pending, one request may take all the room there is.
  lemma {:induction false} TakeAll(c: Config, s: State, key: string) returns (events: seq<Event>)
    requires Consumed(s.counters, key) <= c.capacity
    ensures Ticks(events) == 0
    ensures TotalAdmitted(Run(c, s, events), key)
            == TotalAdmitted(s, key) + c.capacity - Consumed(s.counters, key)
  {
    var score := c.capacity - Consumed(s.counters, key);
    var arrive, command := Arrive(key, score), Command(|s.requests|);
    var s1 := Next(c, s, arrive);
    var s2 := Next(c, s1, command);
    events := [arrive, command];
    assert events[1..] == [command] && Ticks(events) == Ticks([command]) == 0;
    assert Run(c, s, events) == Run(c, s1, [command]) == Run(c, s2, []);
    SumPush(s.requests, Request(key, score, Asking), AdmittedTo(key));
    SumUpdate(s1.requests, |s.requests|, s2.requests[|s.requests|], AdmittedTo(key));
  }

  /**
   The bound holds for every continuation of a state exactly when the counter covers the rollbacks still pending.
   A tick that clamps between a rejected request's increment and its rollback is what breaks the condition.
   */
  lemma {:induction false} StretchSafeIff(c: Config, s: State, key: string)
    ensures StretchSafe(c, s, key) <==> Awaiting(s, key) <= Consumed(s.counters, key)
  {
    if Awaiting(s, key) <= Consumed(s.counters, key) {
      forall events: seq<Event>
        ensures TotalAdmitted(Run(c, s, events), key) - TotalAdmitted(s, key)
                <= c.capacity + Ticks(events) * c.fillRate
      {
        StretchBound(c, s, events, key);
        FilledByTicks(c, events);
      }
    } else {
      var drain := Drain(c, s, key);
      var take := TakeAll(c, Run(c, s, drain), key);
      RunAppend(c, s, drain, take);
      assert TotalAdmitted(Run(c, s, drain + take), key) - TotalAdmitted(s, key) > c.capacity;
    }
  }

  /** A run that reaches such a state: a tick clamps the counter while a rejected request's rollback is pending. */
  lemma {:induction false} ClampCanOvershoot()
    ensures var c := Config(2, 3);
            var s := Run(c, Init, [Arrive("k", 3), Command(0), Tick, Command(0)]);
            s == State(map["k" := -3], [Request("k", 3, Rejected)]) && !StretchSafe(c, s, "k")
  {
    var c := Config(2, 3);
    var e := [Arrive("k", 3), Command(0), Tick, Command(0)];
    var s1 := Next(c, Init, e[0]);
    var s2 := Next(c, s1, e[1]);
    var s3 := Next(c, s2, e[2]);
    var s4 := Next(c, s3, e[3]);
    assert e[1..] == [e[1], e[2], e[3]] && e[1..][1..] == [e[2], e[3]] && e[1..][1..][1..] == [e[3]];
    assert Run(c, Init, e) == Run(c, s1, e[1..]) == Run(c, s2, [e[2], e[3]]) == Run(c, s3, [e[3]]) == s4;
    assert s4 == State(map["k" := -3], [Request("k", 3, Rejected)]);
    StretchSafeIff(c, s4, "k");
  }

  // ----- Runs in which no two requests overlap -----

  datatype Operation = Ask(key: string, score: nat) | Refill

  // A request that runs alone: its increment and, when the phase asks for it, its rollback.
  function Commands(op: Operation, id: nat): seq<Event> {
    match op
    case Ask(key, score) => [Arrive(key, score), Command(id), Command(id)]
    case Refill => [Tick]
  }

  function Apply(c: Config, s: State, op: Operation): State {
    Run(c, s, Commands(op, |s.requests|))
  }

  function ApplyAll(c: Config, s: State, ops: seq<Operation>): State
    decreases ops
  {
    if ops == [] then s else ApplyAll(c, Apply(c, s, ops[0]), ops[1..])
  }

  function Refills(ops: seq<Operation>): nat {
    if ops == [] then 0 else (if ops[0].Refill? then 1 else 0) + Refills(ops[1..])
  }

  ghost predicate Idle(c: Config, s: State) {
    && (forall key :: key in s.counters ==> 0 <= s.counters[key] <= c.capacity)
    && (forall r :: r in s.requests ==> r.phase == Admitted || r.phase == Rejected)
  }

  lemma {:induction false} RunThree(c: Config, s: State, a: Event, b: Event, d: Event)
    ensures Run(c, s, [a, b, d]) == Next(c, Next(c, Next(c, s, a), b), d)
  {
    hide Next;
    assert [a, b, d][1..] == [b, d] && [b, d][1..] == [d] && [d][1..] == [];
    var s1 := Next(c, s, a);
    var s2 := Next(c, s1, b);
    assert Run(c, s, [a, b, d]) == Run(c, s1, [b, d]) == Run(c, s2, [d]) == Run(c, Next(c, s2, d), []);
  }

  /** A request that runs alone is admitted exactly when it fits, and a refused one leaves every counter as it was. */
  lemma {:induction false} AskAlone(c: Config, s: State, key: string, score: nat)
    ensures var s' := Apply(c, s, Ask(key, score));
            var before := Consumed(s.counters, key);
            && |s'.requests| == |s.requests| + 1 && s'.requests[..|s.requests|] == s.requests
            && var phase := s'.requests[|s.requests|].phase;
            && phase == (if before + score <= c.capacity then Admitted else Rejected)
            && s'.counters == s.counters[key := if phase == Admitted then before + score else before]
  {
    var id := |s.requests|;
    RunThree(c, s, Arrive(key, score), Command(id), Command(id));
    var s1 := Next(c, s, Arrive(key, score));
    var s2 := Next(c, s1, Command(id));
    var s3 := Next(c, s2, Command(id));
    var before := Consumed(s.counters, key);
    if before + score <= c.capacity {
      assert s3 == s2 == State(s.counters[key := before + score], s.requests + [Request(key, score, Admitted)]);
    } else {
      assert s2 == State(s.counters[key := before + score], s.requests + [Request(key, score, RollingBack)]);
      assert s3 == State(s.counters[key := before], s.requests + [Request(key, score, Rejected)]);
    }
  }

  lemma {:induction false} ApplyKeepsIdle(c: Config, s: State, op: Operation)
    requires Idle(c, s)
    ensures Idle(c, Apply(c, s, op))
  {
    match op
    case Ask(key, score) =>
      AskAlone(c, s, key, score);
      var s' := Apply(c, s, op);
      assert s'.requests == s.requests + [s'.requests[|s.requests|]];
    case Refill =>
      assert [Tick][1..] == [];
      assert Apply(c, s, op) == Next(c, s, Tick);
  }

  lemma {:induction false} ApplyAllIsRun(c: Config, s: State, ops: seq<Operation>) returns (events: seq<Event>)
    ensures ApplyAll(c, s, ops) == Run(c, s, events) && Ticks(events) == Refills(ops)
    ensures Idle(c, s) ==> Idle(c, ApplyAll(c, s, ops))
    decreases ops
  {
    if ops == [] {
      events := [];
    } else {
      var first := Commands(ops[0], |s.requests|);
      var rest := ApplyAllIsRun(c, Apply(c, s, ops[0]), ops[1..]);
      events := first + rest;
      RunAppend(c, s, first, rest);
      if ops[0].Ask? {
        assert first[1..] == [first[1], first[1]] && first[1..][1..] == [first[1]];
        assert Ticks(first) == Ticks(first[1..]) == Ticks(first[1..][1..]) == 0;
      }
      if Idle(c, s) {
        ApplyKeepsIdle(c, s, ops[0]);
      }
    }
  }

  /** Without overlap the counters stay within 0..capacity, and the bound holds for every stretch of the run. */
  lemma {:induction false} SequentialStretch(c: Config, before: seq<Operation>, stretch: seq<Operation>, key: string)
    ensures var s := ApplyAll(c, Init, before);
            && Idle(c, s)
            && TotalAdmitted(ApplyAll(c, s, stretch), key) - TotalAdmitted(s, key)
               <= c.capacity + Refills(stretch) * c.fillRate
  {
    var _ := ApplyAllIsRun(c, Init, before);
    var s := ApplyAll(c, Init, before);
    var events := ApplyAllIsRun(c, s, stretch);
    SumAllZero(s.requests, AwaitingOn(key));
    StretchSafeIff(c, s, key);
  }

  // ----- What the ticks give back -----

  // Nobody asks on this key: no request on it is in flight, and none arrives.
  ghost predicate Quiet(s: State, events: seq<Event>, key: string) {
    && (forall r :: r in s.requests && r.key == key ==> r.phase == Admitted || r.phase == Rejected)
    && (forall e :: e in events && e.Arrive? ==> e.key != key)
  }

  // What is left of `consumed` after so many ticks.
  function LeftAfter(consumed: int, ticks: nat, fillRate: nat): int {
    if ticks == 0 then consumed else if consumed < ticks * fillRate then 0 else consumed - ticks * fillRate
  }

  lemma {:induction false} LeftStep(consumed: int, ticks: nat, fillRate: nat)
    ensures LeftAfter(LeftAfter(consumed, 1, fillRate), ticks, fillRate) == LeftAfter(consumed, ticks + 1, fillRate)
  {
    assert (ticks + 1) * fillRate == ticks * fillRate + fillRate;
    assert 0 <= ticks * fillRate;
  }

  lemma {:induction false} QuietStep(c: Config, s: State, e: Event, rest: seq<Event>, key: string)
    requires Quiet(s, [e] + rest, key)
    ensures Quiet(Next(c, s, e), rest, key)
    ensures Consumed(Next(c, s, e).counters, key)
            == LeftAfter(Consumed(s.counters, key), if e.Tick? then 1 else 0, c.fillRate)
  {
    assert e in [e] + rest && forall x :: x in rest ==> x in [e] + rest;
    match e
    case Arrive(_, _) =>
    case Tick =>
    case Command(id) =>
      if id < |s.requests| {
        assert s.requests[id] in s.requests;
      }
  }

  /**
   Whatever other keys are asked, so many ticks lower a key nobody asks on by so many times the fill rate, though not
   below zero: the bound on what is admitted is met from below.
   */
  lemma {:induction false} QuietRefills(c: Config, s: State, events: seq<Event>, key: string)
    requires Quiet(s, events, key)
    ensures Quiet(Run(c, s, events), [], key)
    ensures var before, after := Consumed(s.counters, key), Consumed(Run(c, s, events).counters, key);
            var given := Ticks(events) * c.fillRate;
            after == if Ticks(events) == 0 then before else if before < given then 0 else before - given
    decreases events
  {
    hide Next, Consumed;
    if events != [] {
      var e, rest := events[0], events[1..];
      assert events == [e] + rest;
      QuietStep(c, s, e, rest, key);
      QuietRefills(c, Next(c, s, e), rest, key);
      LeftStep(Consumed(s.counters, key), Ticks(rest), c.fillRate);
    }
  }

  /** So a score is admitted after that exactly when it fits what the ticks have given back. */
  lemma {:induction false} RefilledAdmitsIff(c: Config, s: State, events: seq<Event>, key: string, score: nat)
    requires Quiet(s, events, key) && 1 <= Ticks(events)
    ensures var s' := Apply(c, Run(c, s, events), Ask(key, score));
            var owed := Consumed(s.counters, key) - Ticks(events) * c.fillRate;
            && s'.requests != []
            && (s'.requests[|s'.requests| - 1].phase == Admitted <==> score <= c.capacity && owed + score <= c.capacity)
  {
    QuietRefills(c, s, events, key);
    AskAlone(c, Run(c, s, events), key, score);
  }

  // ----- The algorithm itself, over a counter store -----

  function Key(userId: string, token: string): string {
    "rate-limiting:token-bucket:" + userId + ":" + token
  }

  /** Two pairs have one counter exactly when their ids make one text, and so never when they differ without colons. */
  lemma {:induction false} SameKeyIff(u: string, t: string, userId: string, token: string)
    ensures Key(u, t) == Key(userId, token) <==> u + ":" + t == userId + ":" + token
  {
    Pairs.SameRest("rate-limiting:token-bucket:", u + ":" + t, userId + ":" + token);
    assert Key(u, t) == "rate-limiting:token-bucket:" + (u + ":" + t);
    assert Key(userId, token) == "rate-limiting:token-bucket:" + (userId + ":" + token);
  }

  /** A pair has its counter to itself exactly when neither of its ids holds a colon. */
  lemma {:induction false} SharedCounterIff(userId: string, token: string)
    ensures (exists u: string, t: string :: (u, t) != (userId, token) && Key(u, t) == Key(userId, token))
            <==> ':' in userId || ':' in token
  {
    hide Key;
    Pairs.SharedIff(userId, token);
    forall u: string, t: string ensures Key(u, t) == Key(userId, token) <==> u + ":" + t == userId + ":" + token {
      SameKeyIff(u, t, userId, token);
    }
  }

  // The counters of all other pairs whose ids hold no colon are as they were.
  ghost predicate OthersKept(before: map<string, int>, after: map<string, int>, userId: string, token: string) {
    forall u: string, t: string :: ':' !in u && ':' !in t && (u, t) != (userId, token) ==>
      Consumed(after, Key(u, t)) == Consumed(before, Key(u, t))
  }

  lemma {:induction false} OthersApart(before: map<string, int>, value: int, userId: string, token: string)
    ensures OthersKept(before, before[Key(userId, token) := value], userId, token)
  {
    hide Key;
    forall u: string, t: string | ':' !in u && ':' !in t && (u, t) != (userId, token)
      ensures Key(u, t) != Key(userId, token)
    {
      SameKeyIff(u, t, userId, token);
      if u + ":" + t == userId + ":" + token {
        Pairs.SamePair(userId, token, u, t);
      }
    }
  }

  // A summary of these limits, with the same number left in all four windows and a reset in a second.
  ghost predicate Tells(summary: QuotaSummary, limits: QuotaLimits, remaining: int, now: int) {
    && summary.perSecond.limit == limits.perSecond && summary.perMinute.limit == limits.perMinute
    && summary.perHour.limit == limits.perHour && summary.perDay.limit == limits.perDay
    && summary.perSecond.remaining == summary.perMinute.remaining == remaining
    && summary.perHour.remaining == summary.perDay.remaining == remaining
    && summary.perSecond.reset == summary.perMinute.reset == Some(now + 1000)
    && summary.perHour.reset == summary.perDay.reset == Some(now + 1000)
  }

  function Summary(limits: QuotaLimits, remaining: int, now: int): QuotaSummary {
    QuotaSummary(Quota(limits.perSecond, remaining, Some(now + 1000)),
                 Quota(limits.perMinute, remaining, Some(now + 1000)),
                 Quota(limits.perHour, remaining, Some(now + 1000)),
                 Quota(limits.perDay, remaining, Some(now + 1000)))
  }

  class TokenBucketAlgorithm {
    const config: Config
    var counters: map<string, int>

    constructor (config: Config)
      ensures this.config == config && counters == map[]
    {
      this.config := config;
      counters := map[];
    }

    method IncrBy(key: string, score: nat) returns (value: int)
      modifies this
      ensures value == Consumed(old(counters), key) + score && counters == old(counters)[key := value]
    {
      value := (if key in counters then counters[key] else 0) + score;
      counters := counters[key := value];
    }

    method DecrBy(key: string, score: nat) returns (value: int)
      modifies this
      ensures value == Consumed(old(counters), key) - score && counters == old(counters)[key := value]
    {
      value := (if key in counters then counters[key] else 0) - score;
      counters := counters[key := value];
    }

    // The counters and the answer are those of a lone request of the machine; the answer reports what is left.
    method Request(userId: string, token: string, score: nat, limits: QuotaLimits, now: int)
      returns (result: Result<QuotaSummary, TooManyRequests>)
      modifies this
      ensures var s := Apply(config, State(old(counters), []), Ask(Key(userId, token), score));
              && counters == s.counters
              && |s.requests| == 1 && (result.Success? <==> s.requests[0].phase == Admitted)
      ensures result.Success? <==> Consumed(old(counters), Key(userId, token)) + score <= config.capacity
      ensures result.Success? ==>
                Tells(result.value, limits, config.capacity - Consumed(old(counters), Key(userId, token)) - score, now)
      ensures OthersKept(old(counters), counters, userId, token)
    {
      AskAlone(config, State(counters, []), Key(userId, token), score);
      var key := Key(userId, token);
      OthersApart(counters, Consumed(counters, key) + score, userId, token);
      OthersApart(counters, Consumed(counters, key), userId, token);
      ghost var before := counters;
      var consumed := IncrBy(key, score);
      if consumed > config.capacity {
        var _ := DecrBy(key, score);
        assert counters == before[key := Consumed(before, key)];
        return Failure(TooManyRequests);
      }
      var remaining := CalculateRemaining(userId, token, Some(consumed));
      return Success(Summary(limits, remaining, now));
    }

    method GetQuota(userId: string, token: string, limits: QuotaLimits, now: int) returns (summary: QuotaSummary)
      ensures Tells(summary, limits, config.capacity - Consumed(counters, Key(userId, token)), now)
    {
      var remaining := CalculateRemaining(userId, token, None);
      summary := Summary(limits, remaining, now);
    }

    method CalculateRemaining(userId: string, token: string, consumed: Option<int>) returns (remaining: int)
      ensures remaining == config.capacity
                           - if consumed.Some? then consumed.value else Consumed(counters, Key(userId, token))
    {
      var spent := 0;
      if consumed.Some? {
        spent := consumed.value;
      } else if Key(userId, token) in counters {
        spent := counters[Key(userId, token)];
      }
      remaining := config.capacity - spent;
    }

    // KEYS answers in no particular order; every stored counter is lowered once whatever the order is.
    method ResetRates()
      modifies this
      ensures counters == Next(config, State(old(counters), []), Tick).counters
      ensures counters.Keys == old(counters).Keys
      ensures forall key :: key in counters ==>
                counters[key] == if old(counters)[key] < config.fillRate then 0 else old(counters)[key] - config.fillRate
    {
      var keys := counters.Keys;
      while keys != {}
        invariant keys <= counters.Keys == old(counters).Keys
        invariant forall key :: key in keys ==> counters[key] == old(counters)[key]
        invariant forall key :: key in counters && key !in keys ==>
            counters[key] == Refilled(old(counters), config.fillRate)[key]
        decreases keys
      {
        var key :| key in keys;
        var newValue := DecrBy(key, config.fillRate);
        if newValue < 0 {
          counters := counters[key := 0];
        }
        keys := keys - {key};
      }
    }
  }
}
