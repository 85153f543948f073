/**
 The fixed window as a machine of atomic store commands. A request reads the clock once, increments its four window
 counters, refreshes their expiry, and decides; a refused request then decrements the four counters. Commands of any
 number of requests interleave in any order, and the clock may advance between any two of them.

 The same machine runs over two stores: one that expires keys (`drops`) and one that never does.
 */
module FixedWindow {
  import Pairs
  import opened Quotas
  import opened Sums
  import opened Wrappers

  datatype Key = Key(base: string, unit: Unit, start: int)

  datatype Entry = Entry(value: int, expiresAt: Option<int>)

  // `pc` counts the commands issued: four increments, four expiries, the decision, four decrements.
  datatype Phase = Running(pc: nat) | Admitted | Rejected

  // `seen` holds the answers of the increments issued so far.
  datatype Request = Request(base: string, score: nat, limits: QuotaLimits, now: nat, seen: seq<int>, phase: Phase)

  type Store = map<Key, Entry>

  datatype State = State(clock: nat, store: Store, requests: seq<Request>)

  datatype Event =
    | Arrive(base: string, score: nat, limits: QuotaLimits)
    | Advance(ms: nat)
    | Command(id: nat)

  const Init := State(0, map[], [])

  // Math.trunc(now / width) * width
  function WindowStart(now: nat, unit: Unit): (start: nat)
    ensures start <= now < start + Width(unit)
  {
    match unit
    case Second => now / 1000 * 1000
    case Minute => now / 60000 * 60000
    case Hour => now / 3600000 * 3600000
    case Day => now / 86400000 * 86400000
  }

  function KeyAt(base: string, now: nat, unit: Unit): Key {
    Key(base, unit, WindowStart(now, unit))
  }

  function KeyOf(r: Request, i: nat): Key
    requires i < 4
  {
    KeyAt(r.base, r.now, UNITS[i])
  }

  // ----- The store -----

  // As in Redis, a key is still there at the very instant of its expiry, and gone a millisecond later.
  predicate Live(store: Store, clock: int, key: Key, drops: bool) {
    key in store && !(drops && store[key].expiresAt.Some? && store[key].expiresAt.value < clock)
  }

  function Value(store: Store, clock: int, key: Key, drops: bool): int {
    if Live(store, clock, key, drops) then store[key].value else 0
  }

  // INCRBY and DECRBY keep the expiry of a live key and create a missing one without any.
  function Add(store: Store, clock: int, key: Key, amount: int, drops: bool): Store {
    store[key := Entry(Value(store, clock, key, drops) + amount,
                       if Live(store, clock, key, drops) then store[key].expiresAt else None)]
  }

  // EXPIRE does nothing to a missing key.
  function Expire(store: Store, clock: int, key: Key, ttl: nat, drops: bool): Store {
    if Live(store, clock, key, drops) then store[key := store[key].(expiresAt := Some(clock + ttl))] else store
  }

  // ----- The machine -----

  predicate OverLimit(r: Request)
    requires |r.seen| == 4
  {
    || r.seen[0] > r.limits.perSecond
    || r.seen[1] > r.limits.perMinute
    || r.seen[2] > r.limits.perHour
    || r.seen[3] > r.limits.perDay
  }

  function Issue(s: State, id: nat, drops: bool): State
    requires id < |s.requests|
  {
    var r := s.requests[id];
    if !r.phase.Running? then s else
    var pc := r.phase.pc;
    if pc < 4 then
      var key := KeyOf(r, pc);
      var store := Add(s.store, s.clock, key, r.score, drops);
      State(s.clock, store, s.requests[id := r.(seen := r.seen + [store[key].value], phase := Running(pc + 1))])
    else if pc < 8 then
      var key := KeyOf(r, pc - 4);
      State(s.clock, Expire(s.store, s.clock, key, Ttl(key.unit), drops),
            s.requests[id := r.(phase := Running(pc + 1))])
    else if pc == 8 then
      var phase := if |r.seen| == 4 && OverLimit(r) then Running(9) else Admitted;
      s.(requests := s.requests[id := r.(phase := phase)])
    else if pc < 13 then
      var store := Add(s.store, s.clock, KeyOf(r, pc - 9), 0 - r.score, drops);
      State(s.clock, store, s.requests[id := r.(phase := if pc == 12 then Rejected else Running(pc + 1))])
    else s
  }

  function Next(s: State, e: Event, drops: bool): State {
    match e
    case Arrive(base, score, limits) =>
      s.(requests := s.requests + [Request(base, score, limits, s.clock, [], Running(0))])
    case Advance(ms) => s.(clock := s.clock + ms)
    case Command(id) => if id < |s.requests| then Issue(s, id, drops) else s
  }

  function Run(s: State, events: seq<Event>, drops: bool): State
    decreases events
  {
    if events == [] then s else Run(Next(s, events[0], drops), events[1..], drops)
  }

  // ----- What a request adds to a counter -----

  predicate Touches(r: Request, key: Key) {
    r.base == key.base && WindowStart(r.now, key.unit) == key.start
  }

  // Incremented, and not decremented again.
  predicate Holds(r: Request, i: nat) {
    match r.phase
    case Running(pc) => i < pc <= 9 + i
    case Admitted => true
    case Rejected => false
  }

  // Counted against the limit so far: the answer was within it and the request is not being refused.
  predicate Within(r: Request, i: nat, limit: int)
    requires i < 4
  {
    && Holds(r, i)
    && (r.phase.Running? ==> r.phase.pc <= 8)
    && i < |r.seen| && r.seen[i] <= limit
  }

  function Counted(key: Key): Request -> int {
    (r: Request) => if Touches(r, key) && Holds(r, Index(key.unit)) then r.score else 0
  }

  function Eligible(key: Key, limit: int): Request -> int {
    (r: Request) => if Touches(r, key) && Within(r, Index(key.unit), limit) then r.score else 0
  }

  function AdmittedIn(key: Key): Request -> int {
    (r: Request) => if Touches(r, key) && r.phase == Admitted then r.score else 0
  }

  function AdmittedSpan(base: string, from: nat, to: nat): Request -> int {
    (r: Request) => if r.base == base && from <= r.now < to && r.phase == Admitted then r.score else 0
  }

  // ----- The invariant of the store that never expires -----

  ghost predicate WellFormed(r: Request) {
    match r.phase
    case Running(pc) => pc <= 12 && |r.seen| == (if pc < 4 then pc else 4) && (pc > 8 ==> OverLimit(r))
    case Admitted => |r.seen| == 4 && !OverLimit(r)
    case Rejected => |r.seen| == 4 && OverLimit(r)
  }

  ghost predicate Exact(s: State) {
    && (forall r :: r in s.requests ==> WellFormed(r))
    && (forall key: Key :: Value(s.store, s.clock, key, false) == SumBy(s.requests, Counted(key)))
  }

  ghost predicate LimitedTo(s: State, base: string, unit: Unit, limit: int) {
    forall r :: r in s.requests && r.base == base ==> LimitOf(r.limits, unit) <= limit
  }

  ghost predicate Bounded(s: State, key: Key, limit: nat) {
    SumBy(s.requests, Eligible(key, limit)) <= limit
  }

  lemma {:induction false} AddEffect(store: Store, clock: int, key: Key, amount: int, drops: bool, other: Key)
    ensures var store' := Add(store, clock, key, amount, drops);
            && Value(store', clock, other, drops)
               == Value(store, clock, other, drops) + (if other == key then amount else 0)
            && (Live(store', clock, other, drops) <==> other == key || Live(store, clock, other, drops))
  {
  }

  lemma {:induction false} ExpireEffect(store: Store, clock: int, key: Key, ttl: nat, drops: bool, other: Key)
    requires 0 < ttl
    ensures var store' := Expire(store, clock, key, ttl, drops);
            && Value(store', clock, other, drops) == Value(store, clock, other, drops)
            && (Live(store', clock, other, drops) <==> Live(store, clock, other, drops))
            && (other == key && Live(store, clock, key, drops) ==> store'[key].expiresAt == Some(clock + ttl))
            && (other != key && other in store ==> store'[other] == store[other])
  {
  }

  lemma {:induction false} KeyMatch(r: Request, i: nat, key: Key)
    requires i < 4
    ensures key == KeyOf(r, i) <==> Touches(r, key) && Index(key.unit) == i
  {
  }

  // What a request's next command adds to a counter.
  function Change(r: Request, key: Key): int {
    if !r.phase.Running? then 0
    else if r.phase.pc < 4 then (if KeyOf(r, r.phase.pc) == key then r.score else 0)
    else if 9 <= r.phase.pc < 13 then (if KeyOf(r, r.phase.pc - 9) == key then 0 - r.score else 0)
    else 0
  }

  lemma {:induction false} IssueValue(s: State, id: nat, drops: bool, key: Key)
    requires id < |s.requests|
    ensures Value(Issue(s, id, drops).store, s.clock, key, drops)
            == Value(s.store, s.clock, key, drops) + Change(s.requests[id], key)
  {
    hide Value, Live, Add, Expire, OverLimit, KeyOf;
    var r := s.requests[id];
    if r.phase.Running? {
      var pc := r.phase.pc;
      if pc < 4 {
        AddEffect(s.store, s.clock, KeyOf(r, pc), r.score, drops, key);
      } else if pc < 8 {
        ExpireEffect(s.store, s.clock, KeyOf(r, pc - 4), Ttl(KeyOf(r, pc - 4).unit), drops, key);
      } else if 9 <= pc < 13 {
        AddEffect(s.store, s.clock, KeyOf(r, pc - 9), 0 - r.score, drops, key);
      }
    }
  }

  // Whatever the store, a command changes nothing but its own request, and that by what an increment answers.
  lemma {:induction false} IssueRequests(s: State, id: nat, drops: bool)
    requires id < |s.requests|
    ensures var s', r := Issue(s, id, drops), s.requests[id];
            && s'.clock == s.clock && |s'.requests| == |s.requests|
            && s'.requests == s.requests[id := Advanced(r, if r.phase.Running? && r.phase.pc < 4
                                                           then Value(s.store, s.clock, KeyOf(r, r.phase.pc), drops) + r.score
                                                           else 0)]
  {
    hide Value, Live, KeyOf;
    assert s.requests[id := s.requests[id]] == s.requests;
  }

  // A request after its next command, which answered `value` if it was an increment.
  function Advanced(r: Request, value: int): Request {
    if !r.phase.Running? then r
    else if r.phase.pc < 4 then r.(seen := r.seen + [value], phase := Running(r.phase.pc + 1))
    else if r.phase.pc < 8 then r.(phase := Running(r.phase.pc + 1))
    else if r.phase.pc == 8 then r.(phase := if |r.seen| == 4 && OverLimit(r) then Running(9) else Admitted)
    else if r.phase.pc < 13 then r.(phase := if r.phase.pc == 12 then Rejected else Running(r.phase.pc + 1))
    else r
  }

  lemma {:induction false} AdvancedCounts(r: Request, value: int, key: Key)
    requires WellFormed(r)
    ensures WellFormed(Advanced(r, value))
    ensures Counted(key)(Advanced(r, value)) == Counted(key)(r) + Change(r, key)
  {
    hide WindowStart, KeyOf;
    if r.phase.Running? {
      if r.phase.pc < 4 {
        KeyMatch(r, r.phase.pc, key);
      } else if 9 <= r.phase.pc {
        KeyMatch(r, r.phase.pc - 9, key);
      }
    }
  }

  lemma {:induction false} StoreEffect(s: State, id: nat, key: Key)
    requires id < |s.requests| && WellFormed(s.requests[id])
    ensures var s' := Issue(s, id, false);
            && |s'.requests| == |s.requests| && s'.requests == s.requests[id := s'.requests[id]]
            && WellFormed(s'.requests[id])
            && Value(s'.store, s'.clock, key, false) - Value(s.store, s.clock, key, false)
               == Counted(key)(s'.requests[id]) - Counted(key)(s.requests[id])
  {
    hide Issue, Value, WellFormed, Counted, Change, Advanced, KeyOf;
    var r := s.requests[id];
    IssueValue(s, id, false, key);
    IssueRequests(s, id, false);
    var value := if r.phase.Running? && r.phase.pc < 4
                 then Value(s.store, s.clock, KeyOf(r, r.phase.pc), false) + r.score else 0;
    AdvancedCounts(r, value, key);
  }

  lemma {:induction false} StepExact(s: State, e: Event)
    requires Exact(s)
    ensures Exact(Next(s, e, false))
  {
    hide Issue, WellFormed, Counted, Value, SumBy;
    var s' := Next(s, e, false);
    match e
    case Arrive(base, score, limits) =>
      var r := Request(base, score, limits, s.clock, [], Running(0));
      assert WellFormed(r) && forall key: Key :: Counted(key)(r) == 0 by { NewRequest(r); }
      forall key: Key ensures Value(s'.store, s'.clock, key, false) == SumBy(s'.requests, Counted(key)) {
        SumPush(s.requests, r, Counted(key));
        assert Value(s.store, s.clock, key, false) == SumBy(s.requests, Counted(key));
        SameValue(s.store, s.clock, s'.clock, key);
      }
    case Advance(ms) =>
      forall key: Key ensures Value(s'.store, s'.clock, key, false) == SumBy(s'.requests, Counted(key)) {
        assert Value(s.store, s.clock, key, false) == SumBy(s.requests, Counted(key));
        SameValue(s.store, s.clock, s'.clock, key);
      }
    case Command(id) =>
      if id < |s.requests| {
        assert s.requests[id] in s.requests;
        StoreEffect(s, id, Key("", Second, 0));
        forall key: Key ensures Value(s'.store, s'.clock, key, false) == SumBy(s'.requests, Counted(key)) {
          assert Value(s.store, s.clock, key, false) == SumBy(s.requests, Counted(key));
          StoreEffect(s, id, key);
          SumUpdate(s.requests, id, s'.requests[id], Counted(key));
        }
      }
  }

  lemma {:induction false} NewRequest(r: Request)
    requires r.phase == Running(0) && r.seen == []
    ensures WellFormed(r) && forall key: Key :: Counted(key)(r) == 0
    ensures forall key: Key, limit: int :: Eligible(key, limit)(r) == 0
  {
  }

  // The store that never expires keys does not look at the clock.
  lemma {:induction false} SameValue(store: Store, clock: int, later: int, key: Key)
    ensures Value(store, later, key, false) == Value(store, clock, key, false)
  {
  }

  // An increment that answers within the limit leaves its counter within it.
  lemma {:induction false} EligibleGrows(s: State, id: nat, key: Key, limit: nat)
    requires id < |s.requests| && WellFormed(s.requests[id])
    ensures var s' := Issue(s, id, false);
            Eligible(key, limit)(s'.requests[id]) > Eligible(key, limit)(s.requests[id]) ==>
              Value(s'.store, s'.clock, key, false) <= limit
  {
    hide Issue, Value, WindowStart, OverLimit;
    IssueRequests(s, id, false);
    IssueValue(s, id, false, key);
    var r := s.requests[id];
    if r.phase.Running? && r.phase.pc < 4 {
      KeyMatch(r, r.phase.pc, key);
    }
  }

  lemma {:induction false} EligibleIsCounted(requests: seq<Request>, key: Key, limit: nat)
    ensures forall r :: r in requests ==> Eligible(key, limit)(r) <= Counted(key)(r)
  {
  }

  // An increment that answers within the limit has counted every other eligible request of the window.
  lemma {:induction false} StepBounded(s: State, e: Event, key: Key, limit: nat)
    requires Exact(s) && Bounded(s, key, limit)
    ensures Bounded(Next(s, e, false), key, limit)
  {
    hide Issue, WellFormed, Counted, Eligible, Value, SumBy;
    var s' := Next(s, e, false);
    match e
    case Arrive(base, score, limits) =>
      var r := Request(base, score, limits, s.clock, [], Running(0));
      NewRequest(r);
      SumPush(s.requests, r, Eligible(key, limit));
    case Advance(ms) =>
    case Command(id) =>
      if id < |s.requests| {
        StoreEffect(s, id, key);
        var r, r' := s.requests[id], s'.requests[id];
        SumUpdate(s.requests, id, r', Eligible(key, limit));
        if Eligible(key, limit)(r') > Eligible(key, limit)(r) {
          StepExact(s, e);
          EligibleGrows(s, id, key, limit);
          EligibleIsCounted(s'.requests, key, limit);
          SumMono(s'.requests, Eligible(key, limit), Counted(key));
          assert Value(s'.store, s'.clock, key, false) == SumBy(s'.requests, Counted(key));
        }
      }
  }

  lemma {:induction false} RunExact(s: State, events: seq<Event>)
    requires Exact(s)
    ensures Exact(Run(s, events, false))
    decreases events
  {
    if events != [] {
      StepExact(s, events[0]);
      RunExact(Next(s, events[0], false), events[1..]);
    }
  }

  lemma {:induction false} RunBounded(s: State, events: seq<Event>, key: Key, limit: nat)
    requires Exact(s) && Bounded(s, key, limit)
    ensures Bounded(Run(s, events, false), key, limit)
    decreases events
  {
    if events != [] {
      StepExact(s, events[0]);
      StepBounded(s, events[0], key, limit);
      RunBounded(Next(s, events[0], false), events[1..], key, limit);
    }
  }

  // ----- What every interleaving promises -----

  ghost predicate ArrivalsLimited(events: seq<Event>, base: string, unit: Unit, limit: int) {
    forall e :: e in events && e.Arrive? && e.base == base ==> LimitOf(e.limits, unit) <= limit
  }

  lemma {:induction false} RunLimited(s: State, events: seq<Event>, drops: bool, base: string, unit: Unit, limit: int)
    requires LimitedTo(s, base, unit, limit) && ArrivalsLimited(events, base, unit, limit)
    ensures LimitedTo(Run(s, events, drops), base, unit, limit)
    decreases events
  {
    if events != [] {
      assert events[0] in events;
      RunLimited(Next(s, events[0], drops), events[1..], drops, base, unit, limit);
    }
  }

  lemma {:induction false} InitExact()
    ensures Exact(Init)
  {
  }

  /** In every interleaving, the score admitted in a window never passes the limit of its unit. */
  lemma {:induction false} WindowBound(events: seq<Event>, key: Key, limit: nat)
    requires ArrivalsLimited(events, key.base, key.unit, limit)
    ensures SumBy(Run(Init, events, false).requests, AdmittedIn(key)) <= limit
  {
    var s := Run(Init, events, false);
    InitExact();
    RunExact(Init, events);
    RunBounded(Init, events, key, limit);
    RunLimited(Init, events, false, key.base, key.unit, limit);
    forall r | r in s.requests ensures AdmittedIn(key)(r) <= Eligible(key, limit)(r) {
      assert WellFormed(r);
    }
    SumMono(s.requests, AdmittedIn(key), Eligible(key, limit));
  }

  /** Once nothing is in flight, every counter reads exactly what was admitted in its window. */
  lemma {:induction false} QuiescentCounters(events: seq<Event>, key: Key)
    requires forall r :: r in Run(Init, events, false).requests ==> !r.phase.Running?
    ensures var s := Run(Init, events, false);
            Value(s.store, s.clock, key, false) == SumBy(s.requests, AdmittedIn(key))
  {
    InitExact();
    RunExact(Init, events);
    SumSame(Run(Init, events, false).requests, Counted(key), AdmittedIn(key));
  }

  /** Any span of one window's width admits at most twice the limit, wherever it starts. */
  lemma {:induction false} BurstBound(events: seq<Event>, base: string, unit: Unit, from: nat, limit: nat)
    requires ArrivalsLimited(events, base, unit, limit)
    ensures SumBy(Run(Init, events, false).requests, AdmittedSpan(base, from, from + Width(unit))) <= 2 * limit
  {
    var requests := Run(Init, events, false).requests;
    var first := KeyAt(base, from, unit);
    var second := Key(base, unit, first.start + Width(unit));
    WindowBound(events, first, limit);
    WindowBound(events, second, limit);
    forall r | r in requests && from <= r.now < from + Width(unit)
      ensures WindowStart(r.now, unit) == first.start || WindowStart(r.now, unit) == second.start
    {
      NextWindow(from, r.now, unit);
    }
    SumSplit(requests, AdmittedSpan(base, from, from + Width(unit)), AdmittedIn(first), AdmittedIn(second));
  }

  lemma {:induction false} NextWindow(from: nat, now: nat, unit: Unit)
    requires from <= now < from + Width(unit)
    ensures var start := WindowStart(from, unit);
            WindowStart(now, unit) == start || WindowStart(now, unit) == start + Width(unit)
  {
    match unit
    case Second => assert from / 1000 <= now / 1000 <= from / 1000 + 1;
    case Minute => assert from / 60000 <= now / 60000 <= from / 60000 + 1;
    case Hour => assert from / 3600000 <= now / 3600000 <= from / 3600000 + 1;
    case Day => assert from / 86400000 <= now / 86400000 <= from / 86400000 + 1;
  }

  // ----- The store that expires keys -----

  // Every expiry lies past the end of its window, and no request has read the clock ahead of time.
  ghost predicate Unhurried(s: State) {
    && (forall key: Key :: key in s.store && s.store[key].expiresAt.Some? ==>
          key.start + Ttl(key.unit) <= s.store[key].expiresAt.value)
    && (forall r :: r in s.requests ==> r.now <= s.clock)
  }

  lemma {:induction false} StepUnhurried(s: State, e: Event)
    requires Unhurried(s)
    ensures Unhurried(Next(s, e, true))
  {
    var s' := Next(s, e, true);
    if e.Command? && e.id < |s.requests| {
      var r := s.requests[e.id];
      assert r in s.requests;
      forall i | 0 <= i < 4 ensures KeyOf(r, i).start <= s.clock {
      }
    }
  }

  lemma {:induction false} RunUnhurried(s: State, events: seq<Event>)
    requires Unhurried(s)
    ensures Unhurried(Run(s, events, true))
    decreases events
  {
    if events != [] {
      StepUnhurried(s, events[0]);
      RunUnhurried(Next(s, events[0], true), events[1..]);
    }
  }

  /** Expiry never drops a counter whose window is still open, nor in the second after it closes. */
  lemma {:induction false} OpenWindowsLive(events: seq<Event>, key: Key)
    ensures var s := Run(Init, events, true);
            key in s.store && s.clock <= key.start + Width(key.unit) + 1000 ==> Live(s.store, s.clock, key, true)
  {
    RunUnhurried(Init, events);
  }

  // No expiry lies further ahead than a counter's window and one second.
  ghost predicate Near(store: Store, clock: int) {
    forall key: Key :: key in store && store[key].expiresAt.Some? ==>
      store[key].expiresAt.value <= clock + (match key.unit case Second => 2000 case Minute => 61000
                                                            case Hour => 3601000 case Day => 86401000)
  }

  lemma {:induction false} StepNear(s: State, e: Event)
    requires Near(s.store, s.clock)
    ensures Near(Next(s, e, true).store, Next(s, e, true).clock)
  {
    hide WindowStart, OverLimit;
  }

  /** In every run a counter left alone for its width and a second, 2 s, 61 s, 3601 s or 86401 s, has had its expiry. */
  lemma {:induction false} RunNear(s: State, events: seq<Event>)
    requires Near(s.store, s.clock)
    ensures Near(Run(s, events, true).store, Run(s, events, true).clock)
    decreases events
  {
    hide Next, Near;
    if events != [] {
      StepNear(s, events[0]);
      RunNear(Next(s, events[0], true), events[1..]);
    }
  }

  // The two stores agree on the counters that may still be live, and on every request.
  ghost predicate Agree(e: State, n: State) {
    && Unhurried(e)
    && e.clock == n.clock && e.requests == n.requests
    && (forall key: Key :: e.clock <= key.start + Ttl(key.unit) ==>
          Value(e.store, e.clock, key, true) == Value(n.store, n.clock, key, false))
  }

  // An increment issued before its counter can have been dropped.
  predicate Timely(s: State, e: Event) {
    e.Command? && e.id < |s.requests| ==>
      var r := s.requests[e.id];
      r.phase.Running? && r.phase.pc < 4 ==>
        s.clock <= KeyOf(r, r.phase.pc).start + Ttl(UNITS[r.phase.pc])
  }

  // An increment issued at most `delay` after its request read the clock.
  predicate Prompt(s: State, e: Event, delay: nat) {
    e.Command? && e.id < |s.requests| ==>
      var r := s.requests[e.id];
      r.phase.Running? && r.phase.pc < 4 ==> s.clock <= r.now + delay
  }

  predicate PromptRun(s: State, events: seq<Event>, delay: nat)
    decreases events
  {
    events == [] || (Prompt(s, events[0], delay) && PromptRun(Next(s, events[0], true), events[1..], delay))
  }

  lemma {:induction false} StepAgree(e: State, n: State, event: Event)
    requires Agree(e, n) && Timely(e, event)
    ensures Agree(Next(e, event, true), Next(n, event, false))
  {
    hide Unhurried, Value, Issue, KeyOf;
    StepUnhurried(e, event);
    var e', n' := Next(e, event, true), Next(n, event, false);
    if event.Command? && event.id < |e.requests| {
      var r := e.requests[event.id];
      IssueRequests(e, event.id, true);
      IssueRequests(n, event.id, false);
      assert r.phase.Running? && r.phase.pc < 4 ==> KeyOf(r, r.phase.pc).unit == UNITS[r.phase.pc] by { KeyUnits(r); }
    }
    forall key: Key | e'.clock <= key.start + Ttl(key.unit)
      ensures Value(e'.store, e'.clock, key, true) == Value(n'.store, n'.clock, key, false)
    {
      if !event.Command? {
        NextValue(e, event, key);
        SameValue(n.store, n.clock, n'.clock, key);
      } else if event.id < |e.requests| {
        IssueValue(e, event.id, true, key);
        IssueValue(n, event.id, false, key);
      }
    }
  }

  lemma {:induction false} KeyUnits(r: Request)
    ensures forall i: nat :: i < 4 ==> KeyOf(r, i).unit == UNITS[i]
  {
  }

  // While its expiry has not come, a counter keeps its value as time passes.
  lemma {:induction false} NextValue(e: State, event: Event, key: Key)
    requires Unhurried(e) && !event.Command? && Next(e, event, true).clock <= key.start + Ttl(key.unit)
    ensures var e' := Next(e, event, true);
            Value(e'.store, e'.clock, key, true) == Value(e.store, e.clock, key, true)
  {
  }

  lemma {:induction false} PromptIsTimely(s: State, e: Event, delay: nat)
    requires delay <= 1001 && Prompt(s, e, delay)
    ensures Timely(s, e)
  {
  }

  lemma {:induction false} RunAgree(e: State, n: State, events: seq<Event>, delay: nat)
    requires Agree(e, n) && delay <= 1001 && PromptRun(e, events, delay)
    ensures Agree(Run(e, events, true), Run(n, events, false))
    decreases events
  {
    if events != [] {
      PromptIsTimely(e, events[0], delay);
      StepAgree(e, n, events[0]);
      RunAgree(Next(e, events[0], true), Next(n, events[0], false), events[1..], delay);
    }
  }

  /** When increments are issued within 1001 ms, the expiring store answers and decides as the other one does. */
  lemma {:induction false} ExpiryUnobservable(events: seq<Event>, delay: nat)
    requires delay <= 1001 && PromptRun(Init, events, delay)
    ensures Run(Init, events, true).requests == Run(Init, events, false).requests
  {
    RunAgree(Init, Init, events, delay);
  }

  /** So over the expiring store too, any span of one window's width admits at most twice the limit. */
  lemma {:induction false} BurstBoundExpiring(events: seq<Event>, delay: nat, base: string, unit: Unit, from: nat,
                                              limit: nat)
    requires delay <= 1001 && PromptRun(Init, events, delay) && ArrivalsLimited(events, base, unit, limit)
    ensures SumBy(Run(Init, events, true).requests, AdmittedSpan(base, from, from + Width(unit))) <= 2 * limit
  {
    ExpiryUnobservable(events, delay);
    BurstBound(events, base, unit, from, limit);
  }

  /** And once nothing is in flight, every counter not yet expired reads exactly what was admitted in its window. */
  lemma {:induction false} QuiescentExpiring(events: seq<Event>, delay: nat, key: Key)
    requires delay <= 1001 && PromptRun(Init, events, delay)
    requires forall r :: r in Run(Init, events, true).requests ==> !r.phase.Running?
    ensures var s := Run(Init, events, true);
            s.clock <= key.start + Ttl(key.unit) ==>
              Value(s.store, s.clock, key, true) == SumBy(s.requests, AdmittedIn(key))
  {
    RunAgree(Init, Init, events, delay);
    QuiescentCounters(events, key);
  }

  // Admitted on `base` in the `window`-th stretch of that many milliseconds.
  function AdmittedWhen(base: string, width: nat, window: int): Request -> int
    requires 0 < width
  {
    (r: Request) => if r.base == base && r.now / width == window && r.phase == Admitted then r.score else 0
  }

  lemma {:induction false} CalendarWindow(r: Request, base: string, now: nat)
    ensures Touches(r, KeyAt(base, now, Second)) <==> r.base == base && r.now / 1000 == now / 1000
    ensures Touches(r, KeyAt(base, now, Minute)) <==> r.base == base && r.now / 60000 == now / 60000
    ensures Touches(r, KeyAt(base, now, Hour)) <==> r.base == base && r.now / 3600000 == now / 3600000
    ensures Touches(r, KeyAt(base, now, Day)) <==> r.base == base && r.now / 86400000 == now / 86400000
  {
  }

  ghost predicate NoMoreThan(limits: QuotaLimits, most: QuotaLimits) {
    && limits.perSecond <= most.perSecond && limits.perMinute <= most.perMinute
    && limits.perHour <= most.perHour && limits.perDay <= most.perDay
  }

  lemma {:induction false} NoMoreLimited(events: seq<Event>, base: string, most: QuotaLimits, unit: Unit)
    requires forall e :: e in events && e.Arrive? && e.base == base ==> NoMoreThan(e.limits, most)
    ensures ArrivalsLimited(events, base, unit, LimitOf(most, unit))
  {
  }

  /** In numbers: each calendar second, minute, hour and day admits at most what is allowed per second, minute, hour, day. */
  lemma {:induction false} CalendarBounds(events: seq<Event>, drops: bool, base: string, now: nat, most: QuotaLimits)
    requires forall e :: e in events && e.Arrive? && e.base == base ==> NoMoreThan(e.limits, most)
    requires 0 <= most.perSecond && 0 <= most.perMinute && 0 <= most.perHour && 0 <= most.perDay
    requires drops ==> PromptRun(Init, events, 1001)
    ensures var requests := Run(Init, events, drops).requests;
            && SumBy(requests, AdmittedWhen(base, 1000, now / 1000)) <= most.perSecond
            && SumBy(requests, AdmittedWhen(base, 60 * 1000, now / 60000)) <= most.perMinute
            && SumBy(requests, AdmittedWhen(base, 60 * 60 * 1000, now / 3600000)) <= most.perHour
            && SumBy(requests, AdmittedWhen(base, 24 * 60 * 60 * 1000, now / 86400000)) <= most.perDay
  {
    hide Run, PromptRun, KeyAt, Touches, NoMoreThan, ArrivalsLimited;
    if drops {
      ExpiryUnobservable(events, 1001);
    }
    var requests := Run(Init, events, drops).requests;
    forall unit: Unit ensures SumBy(requests, AdmittedIn(KeyAt(base, now, unit))) <= LimitOf(most, unit) {
      NoMoreLimited(events, base, most, unit);
      assert KeyAt(base, now, unit).base == base && KeyAt(base, now, unit).unit == unit by { KeyParts(base, now, unit); }
      WindowBound(events, KeyAt(base, now, unit), LimitOf(most, unit));
    }
    forall r | r in requests ensures Touches(r, KeyAt(base, now, Second)) <==> r.base == base && r.now / 1000 == now / 1000
                             ensures Touches(r, KeyAt(base, now, Minute)) <==> r.base == base && r.now / 60000 == now / 60000
                             ensures Touches(r, KeyAt(base, now, Hour)) <==> r.base == base && r.now / 3600000 == now / 3600000
                             ensures Touches(r, KeyAt(base, now, Day)) <==> r.base == base && r.now / 86400000 == now / 86400000
    {
      CalendarWindow(r, base, now);
    }
    SumSame(requests, AdmittedIn(KeyAt(base, now, Second)), AdmittedWhen(base, 1000, now / 1000));
    SumSame(requests, AdmittedIn(KeyAt(base, now, Minute)), AdmittedWhen(base, 60000, now / 60000));
    SumSame(requests, AdmittedIn(KeyAt(base, now, Hour)), AdmittedWhen(base, 3600000, now / 3600000));
    SumSame(requests, AdmittedIn(KeyAt(base, now, Day)), AdmittedWhen(base, 86400000, now / 86400000));
  }

  lemma {:induction false} KeyParts(base: string, now: nat, unit: Unit)
    ensures KeyAt(base, now, unit).base == base && KeyAt(base, now, unit).unit == unit
  {
  }

  // ----- A request whose commands run one after the other -----

  function Issues(s: State, id: nat, n: nat, drops: bool): (s': State)
    requires id < |s.requests|
    ensures s'.clock == s.clock && |s'.requests| == |s.requests|
  {
    if n == 0 then s else Issue(Issues(s, id, n - 1, drops), id, drops)
  }

  ghost predicate Starts(s: State, id: nat) {
    && id < |s.requests|
    && s.requests[id].phase == Running(0) && s.requests[id].seen == []
  }

  function Answers(s: State, r: Request, n: nat, drops: bool): (seen: seq<int>)
    requires n <= 4
    ensures |seen| == n
  {
    seq(n, i requires 0 <= i < n => Value(s.store, s.clock, KeyOf(r, i), drops) + r.score)
  }

  predicate Fits(s: State, r: Request, drops: bool) {
    forall unit: Unit ::
      Value(s.store, s.clock, KeyAt(r.base, r.now, unit), drops) + r.score <= LimitOf(r.limits, unit)
  }

  // What `n` of the four increments, or the four decrements still to come, add to a counter.
  function Share(r: Request, key: Key, n: nat): int {
    if Touches(r, key) && Index(key.unit) < n then r.score else 0
  }

  // The store after the first `n` commands of a lone request: increments, then expiries.
  function FirstStore(s: State, r: Request, n: nat, drops: bool): Store
    requires n <= 8
  {
    if n == 0 then s.store
    else if n <= 4 then Add(FirstStore(s, r, n - 1, drops), s.clock, KeyOf(r, n - 1), r.score, drops)
    else Expire(FirstStore(s, r, n - 1, drops), s.clock, KeyOf(r, n - 5), Ttl(UNITS[n - 5]), drops)
  }

  lemma {:induction false} FirstStoreValue(s: State, r: Request, n: nat, drops: bool, key: Key)
    requires n <= 8
    ensures var store := FirstStore(s, r, n, drops);
            && Value(store, s.clock, key, drops) == Value(s.store, s.clock, key, drops) + Share(r, key, n)
            && (Touches(r, key) && Index(key.unit) < n ==> Live(store, s.clock, key, drops))
            && (Touches(r, key) && Index(key.unit) + 4 < n ==> store[key].expiresAt == Some(s.clock + Ttl(key.unit)))
  {
    if n > 0 {
      FirstStoreValue(s, r, n - 1, drops, key);
      var store := FirstStore(s, r, n - 1, drops);
      if n <= 4 {
        KeyMatch(r, n - 1, key);
        AddEffect(store, s.clock, KeyOf(r, n - 1), r.score, drops, key);
      } else {
        KeyMatch(r, n - 5, key);
        ExpireEffect(store, s.clock, KeyOf(r, n - 5), Ttl(UNITS[n - 5]), drops, key);
      }
    }
  }

  // The state of a lone request after its first `n` commands.
  function FirstState(s: State, id: nat, n: nat, drops: bool): State
    requires id < |s.requests| && n <= 8
  {
    var r := s.requests[id];
    var seen := Answers(s, r, if n < 4 then n else 4, drops);
    State(s.clock, FirstStore(s, r, n, drops), s.requests[id := r.(seen := seen, phase := Running(n))])
  }

  lemma {:induction false} IncrementStep(s: State, id: nat, n: nat, drops: bool)
    requires Starts(s, id) && n < 4
    ensures Issue(FirstState(s, id, n, drops), id, drops) == FirstState(s, id, n + 1, drops)
  {
    var r := s.requests[id];
    var key := KeyOf(r, n);
    FirstStoreValue(s, r, n, drops, key);
    KeyMatch(r, n, key);
    assert Answers(s, r, n + 1, drops) == Answers(s, r, n, drops) + [Answers(s, r, n + 1, drops)[n]];
  }

  lemma {:induction false} ExpiryStep(s: State, id: nat, n: nat, drops: bool)
    requires Starts(s, id) && 4 <= n < 8
    ensures Issue(FirstState(s, id, n, drops), id, drops) == FirstState(s, id, n + 1, drops)
  {
  }

  lemma {:induction false} FirstCommands(s: State, id: nat, n: nat, drops: bool)
    requires Starts(s, id) && n <= 8
    ensures Issues(s, id, n, drops) == FirstState(s, id, n, drops)
  {
    if n == 0 {
      assert s.requests[id].seen == Answers(s, s.requests[id], 0, drops);
    } else {
      FirstCommands(s, id, n - 1, drops);
      if n <= 4 {
        IncrementStep(s, id, n - 1, drops);
      } else {
        ExpiryStep(s, id, n - 1, drops);
      }
    }
  }

  lemma {:induction false} FitsIsNotOver(s: State, r: Request, drops: bool)
    ensures OverLimit(r.(seen := Answers(s, r, 4, drops))) <==> !Fits(s, r, drops)
  {
    hide Value, KeyOf, KeyAt;
    KeysOf(r);
    FitsEach(s, r, drops);
  }

  lemma {:induction false} KeysOf(r: Request)
    ensures KeyOf(r, 0) == KeyAt(r.base, r.now, Second) && KeyOf(r, 1) == KeyAt(r.base, r.now, Minute)
    ensures KeyOf(r, 2) == KeyAt(r.base, r.now, Hour) && KeyOf(r, 3) == KeyAt(r.base, r.now, Day)
  {
  }

  lemma {:induction false} FitsEach(s: State, r: Request, drops: bool)
    ensures Fits(s, r, drops) <==>
            && Value(s.store, s.clock, KeyAt(r.base, r.now, Second), drops) + r.score <= r.limits.perSecond
            && Value(s.store, s.clock, KeyAt(r.base, r.now, Minute), drops) + r.score <= r.limits.perMinute
            && Value(s.store, s.clock, KeyAt(r.base, r.now, Hour), drops) + r.score <= r.limits.perHour
            && Value(s.store, s.clock, KeyAt(r.base, r.now, Day), drops) + r.score <= r.limits.perDay
  {
    hide Value, KeyAt, Fits;
    if Fits(s, r, drops) {
      FitsIn(s, r, drops, Second);
      FitsIn(s, r, drops, Minute);
      FitsIn(s, r, drops, Hour);
      FitsIn(s, r, drops, Day);
    } else {
      var unit := TightUnit(s, r, drops);
    }
  }

  lemma {:induction false} FitsIn(s: State, r: Request, drops: bool, unit: Unit)
    requires Fits(s, r, drops)
    ensures Value(s.store, s.clock, KeyAt(r.base, r.now, unit), drops) + r.score <= LimitOf(r.limits, unit)
  {
  }

  lemma {:induction false} TightUnit(s: State, r: Request, drops: bool) returns (unit: Unit)
    requires !Fits(s, r, drops)
    ensures Value(s.store, s.clock, KeyAt(r.base, r.now, unit), drops) + r.score > LimitOf(r.limits, unit)
  {
    unit :| Value(s.store, s.clock, KeyAt(r.base, r.now, unit), drops) + r.score > LimitOf(r.limits, unit);
  }

  lemma {:induction false} Decision(s: State, id: nat, drops: bool)
    requires Starts(s, id)
    ensures var r := s.requests[id];
            var phase := if Fits(s, r, drops) then Admitted else Running(9);
            Issues(s, id, 9, drops) == State(s.clock, FirstStore(s, r, 8, drops),
                                             s.requests[id := r.(seen := Answers(s, r, 4, drops), phase := phase)])
  {
    FirstCommands(s, id, 8, drops);
    FitsIsNotOver(s, s.requests[id], drops);
  }

  lemma {:induction false} DecrementStep(t: State, id: nat, i: nat, drops: bool)
    requires id < |t.requests| && i < 4 && t.requests[id].phase == Running(9 + i)
    ensures var t', r := Issue(t, id, drops), t.requests[id];
            && t'.requests == t.requests[id := r.(phase := if i == 3 then Rejected else Running(10 + i))]
            && t'.clock == t.clock
            && forall key: Key :: Value(t'.store, t.clock, key, drops)
                 == Value(t.store, t.clock, key, drops) + Share(r, key, i) - Share(r, key, i + 1)
  {
    var r := t.requests[id];
    forall key: Key ensures Value(Issue(t, id, drops).store, t.clock, key, drops)
                            == Value(t.store, t.clock, key, drops) + Share(r, key, i) - Share(r, key, i + 1)
    {
      KeyMatch(r, i, key);
      AddEffect(t.store, t.clock, KeyOf(r, i), 0 - r.score, drops, key);
    }
  }

  // After the decision and `n` more commands.
  ghost predicate Decided(s: State, s': State, id: nat, n: nat, drops: bool) {
    && id < |s.requests| && s'.clock == s.clock
    && var r := s.requests[id];
       var fits := Fits(s, r, drops);
       var phase := if fits then Admitted else if n == 4 then Rejected else Running(9 + n);
       && s'.requests == s.requests[id := r.(seen := Answers(s, r, 4, drops), phase := phase)]
       && forall key: Key :: Value(s'.store, s.clock, key, drops) == Value(s.store, s.clock, key, drops)
            + Share(r, key, 4) - (if fits then 0 else Share(r, key, n))
  }

  lemma {:induction false} NowDecided(s: State, id: nat, drops: bool)
    requires Starts(s, id)
    ensures Decided(s, Issues(s, id, 9, drops), id, 0, drops)
  {
    hide FirstStore, Fits, Value, Answers, Issues, Touches;
    var r := s.requests[id];
    Decision(s, id, drops);
    forall key: Key ensures Value(FirstStore(s, r, 8, drops), s.clock, key, drops)
                            == Value(s.store, s.clock, key, drops) + Share(r, key, 4)
    {
      FirstStoreValue(s, r, 8, drops, key);
      assert Share(r, key, 8) == Share(r, key, 4);
    }
    assert forall key: Key :: Share(r, key, 0) == 0;
  }

  lemma {:induction false} DecidedOn(s: State, t: State, id: nat, n: nat, drops: bool)
    requires Decided(s, t, id, n, drops) && n < 4
    ensures Decided(s, Issue(t, id, drops), id, n + 1, drops)
  {
    hide Fits, Value, Answers;
    var r, t' := s.requests[id], Issue(t, id, drops);
    if !Fits(s, r, drops) {
      hide Issue;
      DecrementStep(t, id, n, drops);
      forall key: Key ensures Value(t'.store, s.clock, key, drops)
                              == Value(s.store, s.clock, key, drops) + Share(r, key, 4) - Share(r, key, n + 1)
      {
        assert Value(t.store, s.clock, key, drops) == Value(s.store, s.clock, key, drops) + Share(r, key, 4) - Share(r, key, n);
        assert Share(t.requests[id], key, n) == Share(r, key, n) && Share(t.requests[id], key, n + 1) == Share(r, key, n + 1);
      }
    }
  }

  lemma {:induction false} LastCommands(s: State, id: nat, n: nat, drops: bool)
    requires Starts(s, id) && n <= 4
    ensures Decided(s, Issues(s, id, 9 + n, drops), id, n, drops)
  {
    hide Decided, Issue;
    if n == 0 {
      NowDecided(s, id, drops);
    } else {
      LastCommands(s, id, n - 1, drops);
      DecidedOn(s, Issues(s, id, 8 + n, drops), id, n - 1, drops);
    }
  }

  /** A lone request is admitted exactly when it fits all four windows; refused, it leaves every counter as it was. */
  lemma {:induction false} LoneRequest(s: State, id: nat, drops: bool)
    requires Starts(s, id)
    ensures var s', r := Issues(s, id, 13, drops), s.requests[id];
            && s'.requests[id].phase == (if Fits(s, r, drops) then Admitted else Rejected)
            && forall key: Key :: Value(s'.store, s.clock, key, drops) == Value(s.store, s.clock, key, drops)
                 + if Fits(s, r, drops) && Touches(r, key) then r.score else 0
  {
    LastCommands(s, id, 4, drops);
  }

  // ----- How late an increment may be issued -----

  ghost predicate SafeWithin(delay: nat) {
    forall events: seq<Event>, key: Key, limit: nat ::
      PromptRun(Init, events, delay) && ArrivalsLimited(events, key.base, key.unit, limit) ==>
        SumBy(Run(Init, events, true).requests, AdmittedIn(key)) <= limit
  }

  function Repeat(id: nat, n: nat): seq<Event> {
    seq(n, _ => Command(id))
  }

  lemma {:induction false} RunAppend(s: State, first: seq<Event>, second: seq<Event>, delay: nat)
    ensures Run(s, first + second, true) == Run(Run(s, first, true), second, true)
    ensures PromptRun(s, first + second, delay) <==>
            PromptRun(s, first, delay) && PromptRun(Run(s, first, true), second, delay)
    decreases first
  {
    if first == [] {
      assert first + second == second;
    } else {
      assert (first + second)[1..] == first[1..] + second;
      RunAppend(Next(s, first[0], true), first[1..], second, delay);
    }
  }

  const OVERSHOOT_LIMITS := QuotaLimits(1, 10, 10, 10)

  const EARLY := Request("k", 1, OVERSHOOT_LIMITS, 0, [], Running(0))
  const LATE := Request("k", 1, OVERSHOOT_LIMITS, 999, [], Running(0))
  const ARRIVE := Arrive("k", 1, OVERSHOOT_LIMITS)

  lemma {:induction false} TwoAdmitted(a: Request, b: Request)
    requires a.base == "k" && a.now == 0 && a.score == 1 && a.phase == Admitted
    requires b.base == "k" && b.now == 999 && b.score == 1 && b.phase == Admitted
    ensures SumBy([a, b], AdmittedIn(Key("k", Second, 0))) == 2
  {
    var weight := AdmittedIn(Key("k", Second, 0));
    assert [a, b][1..] == [b] && [b][1..] == [];
    assert SumBy([a, b], weight) == weight(a) + SumBy([b], weight) == weight(a) + (weight(b) + SumBy([], weight));
  }

  // Two seconds and a millisecond after the first request its second's counter is gone; the other three still read one.
  lemma {:induction false} SecondFits(s1: State, store: Store)
    requires s1 == State(0, map[], [EARLY]) && store == FirstStore(s1, EARLY, 8, true)
    ensures Fits(State(2001, store, []), LATE, true)
  {
    forall unit: Unit
      ensures Value(store, 2001, KeyAt("k", 999, unit), true) + 1 <= LimitOf(OVERSHOOT_LIMITS, unit)
    {
      FirstStoreValue(s1, EARLY, 8, true, KeyAt("k", 999, unit));
    }
  }

  // ----- What the counters read at rest -----

  // A decrement issued at most `delay` after its request read the clock.
  predicate Rolls(s: State, e: Event, delay: nat) {
    e.Command? && e.id < |s.requests| ==>
      var r := s.requests[e.id];
      r.phase.Running? && 9 <= r.phase.pc ==> s.clock <= r.now + delay
  }

  predicate RollsRun(s: State, events: seq<Event>, delay: nat)
    decreases events
  {
    events == [] || (Rolls(s, events[0], delay) && RollsRun(Next(s, events[0], true), events[1..], delay))
  }

  ghost predicate AtRest(s: State) {
    forall r :: r in s.requests ==> !r.phase.Running?
  }

  ghost predicate ReadsRight(s: State, key: Key) {
    Live(s.store, s.clock, key, true) ==> Value(s.store, s.clock, key, true) == SumBy(s.requests, AdmittedIn(key))
  }

  // At rest, whatever counter is there reads exactly what was admitted in its window.
  ghost predicate RestExact(increments: nat, decrements: nat) {
    forall events: seq<Event>, key: Key :: RestsRight(events, key, increments, decrements)
  }

  ghost predicate RestsRight(events: seq<Event>, key: Key, increments: nat, decrements: nat) {
    PromptRun(Init, events, increments) && RollsRun(Init, events, decrements) && AtRest(Run(Init, events, true)) ==>
      ReadsRight(Run(Init, events, true), key)
  }

  // The two stores hold the same counters, but for their expiries.
  ghost predicate SameStores(a: Store, b: Store) {
    (forall key :: key in a <==> key in b) && (forall key :: key in a ==> a[key].value == b[key].value)
  }

  ghost predicate SameCounters(e: State, n: State) {
    Unhurried(e) && e.clock == n.clock && e.requests == n.requests && SameStores(e.store, n.store)
  }

  // Nothing has dropped the counter.
  ghost predicate Kept(store: Store, clock: int, key: Key) {
    key in store ==> Live(store, clock, key, true)
  }

  lemma {:induction false} AddSame(a: Store, b: Store, clock: int, key: Key, amount: int)
    requires SameStores(a, b) && Kept(a, clock, key)
    ensures Value(a, clock, key, true) == Value(b, clock, key, false)
    ensures SameStores(Add(a, clock, key, amount, true), Add(b, clock, key, amount, false))
  {
  }

  lemma {:induction false} ExpireSame(a: Store, b: Store, clock: int, key: Key, ttl: nat)
    requires SameStores(a, b)
    ensures SameStores(Expire(a, clock, key, ttl, true), Expire(b, clock, key, ttl, false))
  {
  }

  lemma {:induction false} IssueSame(e: State, n: State, id: nat)
    requires SameCounters(e, n) && id < |e.requests|
    requires var r := e.requests[id];
             && (r.phase.Running? && r.phase.pc < 4 ==> Kept(e.store, e.clock, KeyOf(r, r.phase.pc)))
             && (r.phase.Running? && 9 <= r.phase.pc < 13 ==> Kept(e.store, e.clock, KeyOf(r, r.phase.pc - 9)))
    ensures SameStores(Issue(e, id, true).store, Issue(n, id, false).store)
    ensures Issue(e, id, true).requests == Issue(n, id, false).requests
  {
    hide SameStores, Unhurried, Kept, Value, Live, Add, Expire, KeyOf, OverLimit;
    var r := e.requests[id];
    IssueRequests(e, id, true);
    IssueRequests(n, id, false);
    if r.phase.Running? {
      if r.phase.pc < 4 {
        AddSame(e.store, n.store, e.clock, KeyOf(r, r.phase.pc), r.score);
      } else if r.phase.pc < 8 {
        var key := KeyOf(r, r.phase.pc - 4);
        ExpireSame(e.store, n.store, e.clock, key, Ttl(key.unit));
      } else if 9 <= r.phase.pc < 13 {
        AddSame(e.store, n.store, e.clock, KeyOf(r, r.phase.pc - 9), 0 - r.score);
      }
    }
  }

  lemma {:induction false} StepSame(e: State, n: State, event: Event, increments: nat, decrements: nat)
    requires SameCounters(e, n) && increments <= 1001 && decrements <= 1001
    requires Prompt(e, event, increments) && Rolls(e, event, decrements)
    ensures SameCounters(Next(e, event, true), Next(n, event, false))
  {
    hide Unhurried, SameStores, Issue, KeyOf, Kept;
    StepUnhurried(e, event);
    if event.Command? && event.id < |e.requests| {
      var r := e.requests[event.id];
      if r.phase.Running? && r.phase.pc < 4 {
        InTime(e, r, r.phase.pc, increments);
      } else if r.phase.Running? && 9 <= r.phase.pc < 13 {
        InTime(e, r, r.phase.pc - 9, decrements);
      }
      IssueRequests(e, event.id, true);
      IssueRequests(n, event.id, false);
      IssueSame(e, n, event.id);
    }
  }

  lemma {:induction false} InTime(e: State, r: Request, i: nat, delay: nat)
    requires Unhurried(e) && i < 4 && e.clock <= r.now + delay && delay <= 1001
    ensures Kept(e.store, e.clock, KeyOf(r, i))
  {
  }

  lemma {:induction false} RunSame(e: State, n: State, events: seq<Event>, increments: nat, decrements: nat)
    requires SameCounters(e, n) && increments <= 1001 && decrements <= 1001
    requires PromptRun(e, events, increments) && RollsRun(e, events, decrements)
    ensures SameCounters(Run(e, events, true), Run(n, events, false))
    decreases events
  {
    hide SameCounters, Next, Prompt, Rolls;
    if events != [] {
      StepSame(e, n, events[0], increments, decrements);
      RunSame(Next(e, events[0], true), Next(n, events[0], false), events[1..], increments, decrements);
    }
  }

  lemma {:induction false} InitSame()
    ensures SameCounters(Init, Init)
  {
  }

  /** With increments and decrements issued in time, every counter that is there at rest reads what was admitted. */
  lemma {:induction false} RestReadsRight(events: seq<Event>, increments: nat, decrements: nat, key: Key)
    requires increments <= 1001 && decrements <= 1001
    requires PromptRun(Init, events, increments) && RollsRun(Init, events, decrements)
    requires AtRest(Run(Init, events, true))
    ensures ReadsRight(Run(Init, events, true), key)
  {
    hide PromptRun, RollsRun, Run;
    InitSame();
    RunSame(Init, Init, events, increments, decrements);
    QuiescentCounters(events, key);
  }

  lemma {:induction false} RollsAppend(s: State, first: seq<Event>, second: seq<Event>, delay: nat)
    ensures RollsRun(s, first + second, delay) <==> RollsRun(s, first, delay) && RollsRun(Run(s, first, true), second, delay)
    decreases first
  {
    hide Next, Rolls;
    if first == [] {
      assert first + second == second;
    } else {
      assert (first + second)[1..] == first[1..] + second;
      RollsAppend(Next(s, first[0], true), first[1..], second, delay);
    }
  }

  // That the events lead from one state to the other, with increments and decrements issued in time.
  ghost predicate Leads(s: State, events: seq<Event>, s': State, increments: nat, decrements: nat) {
    PromptRun(s, events, increments) && RollsRun(s, events, decrements) && Run(s, events, true) == s'
  }

  lemma {:induction false} LeadsOn(s: State, first: seq<Event>, s1: State, second: seq<Event>, s2: State, increments: nat,
                                   decrements: nat)
    requires Leads(s, first, s1, increments, decrements) && Leads(s1, second, s2, increments, decrements)
    ensures Leads(s, first + second, s2, increments, decrements)
  {
    hide Run, PromptRun, RollsRun;
    RunAppend(s, first, second, increments);
    RollsAppend(s, first, second, decrements);
  }

  lemma {:induction false} LeadsNowhere(s: State, increments: nat, decrements: nat)
    ensures Leads(s, [], s, increments, decrements)
  {
  }

  lemma {:induction false} LeadsOne(s: State, e: Event, increments: nat, decrements: nat)
    requires Prompt(s, e, increments) && Rolls(s, e, decrements)
    ensures Leads(s, [e], Next(s, e, true), increments, decrements)
  {
    hide Next, Prompt, Rolls;
    assert [e][1..] == [];
    LeadsNowhere(Next(s, e, true), increments, decrements);
  }

  // How far a request is, and when it read the clock.
  ghost predicate Timed(s: State, id: nat, pc: nat, now: nat) {
    id < |s.requests| && s.requests[id].now == now && (s.requests[id].phase.Running? ==> s.requests[id].phase.pc <= pc)
  }

  lemma {:induction false} IssueTimed(s: State, id: nat, pc: nat, now: nat)
    requires Timed(s, id, pc, now)
    ensures Timed(Issue(s, id, true), id, pc + 1, now) && Issue(s, id, true).clock == s.clock
  {
    hide Value, Live;
  }

  // Commands of one request up to its decision, with its increments on the spot or already issued.
  lemma {:induction false} LeadsDeciding(s: State, id: nat, pc: nat, n: nat, now: nat, increments: nat, decrements: nat)
    requires Timed(s, id, pc, now) && pc + n <= 9 && s.clock <= now + increments
    ensures Leads(s, Repeat(id, n), Issues(s, id, n, true), increments, decrements)
    ensures Timed(Issues(s, id, n, true), id, pc + n, now)
    decreases n
  {
    hide Issue, Leads;
    if n == 0 {
      assert Repeat(id, 0) == [];
      LeadsNowhere(s, increments, decrements);
    } else {
      LeadsDeciding(s, id, pc, n - 1, now, increments, decrements);
      var last := Issues(s, id, n - 1, true);
      assert Repeat(id, n) == Repeat(id, n - 1) + [Command(id)];
      LeadsOne(last, Command(id), increments, decrements);
      IssueTimed(last, id, pc + n - 1, now);
      LeadsOn(s, Repeat(id, n - 1), last, [Command(id)], Issues(s, id, n, true), increments, decrements);
    }
  }

  // ----- Too late to increment -----

  // One request at the window's first instant ...
  lemma {:induction false} EarlyLeads(increments: nat, decrements: nat) returns (events: seq<Event>, s: State)
    ensures ArrivalsLimited(events, "k", Second, 1)
    ensures Leads(Init, events, s, increments, decrements) && s.clock == 0
    ensures |s.requests| == 1 && s.requests == [EARLY.(seen := s.requests[0].seen, phase := Admitted)]
    ensures s.store == FirstStore(State(0, map[], [EARLY]), EARLY, 8, true)
  {
    hide Issue, Leads, FirstStore;
    var s1 := State(0, map[], [EARLY]);
    assert [] + [EARLY] == [EARLY];
    LeadsOne(Init, ARRIVE, increments, decrements);
    LeadsDeciding(s1, 0, 0, 9, 0, increments, decrements);
    s := Issues(s1, 0, 9, true);
    events := [ARRIVE] + Repeat(0, 9);
    LeadsOn(Init, [ARRIVE], s1, Repeat(0, 9), s, increments, decrements);
    assert Fits(s1, EARLY, true);
    Decision(s1, 0, true);
  }

  const FIRST := Key("k", Second, 0)

  lemma {:induction false} FirstDead(store: Store)
    requires store == FirstStore(State(0, map[], [EARLY]), EARLY, 8, true)
    ensures !Live(store, 2001, FIRST, true) && Live(store, 999, FIRST, true) && Value(store, 999, FIRST, true) == 1
    ensures FIRST in store
  {
    hide FirstStore;
    FirstStoreValue(State(0, map[], [EARLY]), EARLY, 8, true, FIRST);
  }

  // ... another at its last ...
  lemma {:induction false} LateLeads(s: State, increments: nat, decrements: nat) returns (events: seq<Event>)
    requires s.clock == 0 && |s.requests| == 1
    ensures ArrivalsLimited(events, "k", Second, 1)
    ensures Leads(s, events, State(999, s.store, s.requests + [LATE]), increments, decrements)
  {
    hide Leads;
    var s1 := State(999, s.store, s.requests);
    LeadsOne(s, Advance(999), increments, decrements);
    LeadsOne(s1, ARRIVE, increments, decrements);
    events := [Advance(999)] + [ARRIVE];
    LeadsOn(s, [Advance(999)], s1, [ARRIVE], State(999, s.store, s.requests + [LATE]), increments, decrements);
  }

  // ... whose increments come 1002 ms later finds its counter gone, and at rest it reads one of the two admitted.
  lemma {:induction false} LateIncrement(increments: nat, decrements: nat) returns (events: seq<Event>)
    requires 1001 < increments
    ensures PromptRun(Init, events, increments) && RollsRun(Init, events, decrements)
    ensures AtRest(Run(Init, events, true)) && !ReadsRight(Run(Init, events, true), FIRST)
    ensures ArrivalsLimited(events, "k", Second, 1) && SumBy(Run(Init, events, true).requests, AdmittedIn(FIRST)) == 2
  {
    hide Issue, Leads, FirstStore, Value, Live;
    var early, s := EarlyLeads(increments, decrements);
    var late := LateLeads(s, increments, decrements);
    var s2, s3 := State(999, s.store, s.requests + [LATE]), State(2001, s.store, s.requests + [LATE]);
    LeadsOn(Init, early, s, late, s2, increments, decrements);
    LeadsOne(s2, Advance(1002), increments, decrements);
    LeadsOn(Init, early + late, s2, [Advance(1002)], s3, increments, decrements);
    LeadsDeciding(s3, 1, 0, 9, 999, increments, decrements);
    var s4 := Issues(s3, 1, 9, true);
    events := early + late + [Advance(1002)] + Repeat(1, 9);
    LeadsOn(Init, early + late + [Advance(1002)], s3, Repeat(1, 9), s4, increments, decrements);
    assert Run(Init, events, true) == s4 && PromptRun(Init, events, increments) && RollsRun(Init, events, decrements) by {
      LeadsMeans(Init, events, s4, increments, decrements);
    }
    LateFits(s, s3);
    Decision(s3, 1, true);
    OneOfTwo(s, s3, s4);
  }

  lemma {:induction false} LeadsMeans(s: State, events: seq<Event>, s': State, increments: nat, decrements: nat)
    requires Leads(s, events, s', increments, decrements)
    ensures PromptRun(s, events, increments) && RollsRun(s, events, decrements) && Run(s, events, true) == s'
  {
  }

  lemma {:induction false} LateFits(s: State, s3: State)
    requires s.store == FirstStore(State(0, map[], [EARLY]), EARLY, 8, true)
    requires s3.clock == 2001 && s3.store == s.store
    ensures Fits(s3, LATE, true)
  {
    hide FirstStore, Value;
    SecondFits(State(0, map[], [EARLY]), s.store);
    assert Fits(State(2001, s.store, []), LATE, true);
  }

  lemma {:induction false} OneOfTwo(s: State, s3: State, s4: State)
    requires s.store == FirstStore(State(0, map[], [EARLY]), EARLY, 8, true)
    requires |s.requests| == 1 && s.requests == [EARLY.(seen := s.requests[0].seen, phase := Admitted)]
    requires s3 == State(2001, s.store, s.requests + [LATE])
    requires s4.clock == 2001 && s4.store == FirstStore(s3, LATE, 8, true) && |s4.requests| == 2
    requires s4.requests == s3.requests[1 := LATE.(seen := s4.requests[1].seen, phase := Admitted)]
    ensures AtRest(s4) && !ReadsRight(s4, FIRST) && SumBy(s4.requests, AdmittedIn(FIRST)) == 2
  {
    hide FirstStore;
    FirstDead(s.store);
    FirstStoreValue(s3, LATE, 8, true, FIRST);
    TwoAdmitted(s4.requests[0], s4.requests[1]);
    assert s4.requests == [s4.requests[0], s4.requests[1]];
  }

  /** Over the expiring store the limit is safe exactly when increments are issued within 1001 ms of the arrival. */
  lemma {:induction false} SafeWithinIff(delay: nat)
    ensures SafeWithin(delay) <==> delay <= 1001
  {
    if delay <= 1001 {
      forall events: seq<Event>, key: Key, limit: nat
        | PromptRun(Init, events, delay) && ArrivalsLimited(events, key.base, key.unit, limit)
        ensures SumBy(Run(Init, events, true).requests, AdmittedIn(key)) <= limit
      {
        ExpiryUnobservable(events, delay);
        WindowBound(events, key, limit);
      }
    } else {
      var events := LateIncrement(delay, 0);
      assert SumBy(Run(Init, events, true).requests, AdmittedIn(FIRST)) > 1;
    }
  }

  // ----- Too late to roll back -----

  // A refused request whose first counter has expired before its expiry could be refreshed.
  ghost predicate Stranded(s: State, id: nat, pc: nat) {
    && id < |s.requests| && s.requests[id].phase == Running(pc) && |s.requests[id].seen| == 4 && OverLimit(s.requests[id])
    && var first := KeyOf(s.requests[id], 0);
    if pc <= 9 then !Live(s.store, s.clock, first, true)
    else first in s.store && s.store[first] == Entry(0 - s.requests[id].score, None)
  }

  lemma {:induction false} StrandedStep(s: State, id: nat, pc: nat)
    requires 4 <= pc < 12 && Stranded(s, id, pc)
    ensures Stranded(Issue(s, id, true), id, pc + 1)
    ensures var s' := Issue(s, id, true);
            && s'.clock == s.clock && |s'.requests| == |s.requests|
            && s'.requests == s.requests[id := s.requests[id].(phase := Running(pc + 1))]
  {
    hide WindowStart;
    var r := s.requests[id];
    assert KeyOf(r, 1) != KeyOf(r, 0) && KeyOf(r, 2) != KeyOf(r, 0) && KeyOf(r, 3) != KeyOf(r, 0);
  }

  lemma {:induction false} StrandedSteps(s: State, id: nat, n: nat)
    requires n <= 8 && id < |s.requests| && Stranded(s, id, 4)
    ensures Stranded(Issues(s, id, n, true), id, 4 + n)
    ensures var s' := Issues(s, id, n, true);
            |s'.requests| == |s.requests| && s'.requests == s.requests[id := s.requests[id].(phase := Running(4 + n))]
    decreases n
  {
    hide Issue, Stranded;
    if n == 0 {
      assert s.requests[id].phase == Running(4) by { StrandedIs(s, id); }
      assert s.requests[id := s.requests[id]] == s.requests;
    } else {
      StrandedSteps(s, id, n - 1);
      StrandedStep(Issues(s, id, n - 1, true), id, 3 + n);
    }
  }

  lemma {:induction false} StrandedIs(s: State, id: nat)
    requires Stranded(s, id, 4)
    ensures id < |s.requests| && s.requests[id].phase == Running(4)
  {
  }

  // At the end the counter is there again, for good, and reads less than nothing.
  lemma {:induction false} StrandedEnds(s: State, id: nat)
    requires id < |s.requests| && Stranded(s, id, 4)
    ensures var s', r := Issues(s, id, 9, true), s.requests[id];
            && s'.clock == s.clock && |s'.requests| == |s.requests|
            && s'.requests == s.requests[id := r.(phase := Rejected)]
            && KeyOf(r, 0) in s'.store && s'.store[KeyOf(r, 0)] == Entry(0 - r.score, None)
  {
    hide Stranded, OverLimit, WindowStart;
    StrandedSteps(s, id, 8);
    StrandedLast(Issues(s, id, 8, true), id);
  }

  lemma {:induction false} StrandedLast(s: State, id: nat)
    requires Stranded(s, id, 12)
    ensures var s', r := Issue(s, id, true), s.requests[id];
            && s'.clock == s.clock && s'.requests == s.requests[id := r.(phase := Rejected)]
            && KeyOf(r, 0) in s'.store && s'.store[KeyOf(r, 0)] == Entry(0 - r.score, None)
  {
    hide OverLimit, WindowStart;
    assert KeyOf(s.requests[id], 3) != KeyOf(s.requests[id], 0);
  }

  // The late request increments on the spot and is over the limit; its expiries and decrements come 1002 ms later. The
  // counter they leave never expires, and the one request admitted is not in it.
  lemma {:induction false} LateRollback(increments: nat, decrements: nat) returns (events: seq<Event>)
    requires 1001 < decrements
    ensures PromptRun(Init, events, increments) && RollsRun(Init, events, decrements)
    ensures AtRest(Run(Init, events, true)) && !ReadsRight(Run(Init, events, true), FIRST)
    ensures var store := Run(Init, events, true).store; FIRST in store && store[FIRST] == Entry(-1, None)
    ensures SumBy(Run(Init, events, true).requests, AdmittedIn(FIRST)) == 1
  {
    hide Issue, Leads, FirstStore, Value, Live, Stranded;
    var early, s := EarlyLeads(increments, decrements);
    var late := LateLeads(s, increments, decrements);
    var s2 := State(999, s.store, s.requests + [LATE]);
    LeadsOn(Init, early, s, late, s2, increments, decrements);
    LeadsDeciding(s2, 1, 0, 4, 999, increments, decrements);
    var s3 := Issues(s2, 1, 4, true);
    FirstCommands(s2, 1, 4, true);
    LeadsOn(Init, early + late, s2, Repeat(1, 4), s3, increments, decrements);
    var s4 := State(2001, s3.store, s3.requests);
    LeadsOne(s3, Advance(1002), increments, decrements);
    LeadsOn(Init, early + late + Repeat(1, 4), s3, [Advance(1002)], s4, increments, decrements);
    LeadsRollingBack(s4, 1, 9, 999, increments, decrements);
    var s5 := Issues(s4, 1, 9, true);
    events := early + late + Repeat(1, 4) + [Advance(1002)] + Repeat(1, 9);
    LeadsOn(Init, early + late + Repeat(1, 4) + [Advance(1002)], s4, Repeat(1, 9), s5, increments, decrements);
    LeadsMeans(Init, events, s5, increments, decrements);
    LateStranded(s, s2, s4);
    StrandedEnds(s4, 1);
    OneAdmitted(s, s5);
  }

  // Commands of one request once its increments are issued.
  lemma {:induction false} LeadsRollingBack(s: State, id: nat, n: nat, now: nat, increments: nat, decrements: nat)
    requires Timed(s, id, 13, now) && Past(s, id, 4) && s.clock <= now + decrements
    ensures Leads(s, Repeat(id, n), Issues(s, id, n, true), increments, decrements)
    ensures Timed(Issues(s, id, n, true), id, 13 + n, now) && Past(Issues(s, id, n, true), id, 4)
    decreases n
  {
    hide Issue, Leads, Past;
    if n == 0 {
      assert Repeat(id, 0) == [];
      LeadsNowhere(s, increments, decrements);
    } else {
      LeadsRollingBack(s, id, n - 1, now, increments, decrements);
      var last := Issues(s, id, n - 1, true);
      assert Repeat(id, n) == Repeat(id, n - 1) + [Command(id)];
      PastInTime(last, id, increments);
      LeadsOne(last, Command(id), increments, decrements);
      IssueTimed(last, id, 13 + n - 1, now);
      LeadsOn(s, Repeat(id, n - 1), last, [Command(id)], Issues(s, id, n, true), increments, decrements);
    }
  }

  ghost predicate Past(s: State, id: nat, pc: nat) {
    id < |s.requests| && (s.requests[id].phase.Running? ==> pc <= s.requests[id].phase.pc)
  }

  lemma {:induction false} PastInTime(s: State, id: nat, increments: nat)
    requires Past(s, id, 4)
    ensures Prompt(s, Command(id), increments) && Past(Issue(s, id, true), id, 4)
  {
    hide Value, Live;
  }

  lemma {:induction false} LateStranded(s: State, s2: State, s4: State)
    requires s.store == FirstStore(State(0, map[], [EARLY]), EARLY, 8, true) && |s.requests| == 1
    requires s2 == State(999, s.store, s.requests + [LATE]) && s4.clock == 2001
    requires s4.store == FirstState(s2, 1, 4, true).store && s4.requests == FirstState(s2, 1, 4, true).requests
    ensures Stranded(s4, 1, 4) && s4.requests[1].base == "k" && s4.requests[1].now == 999 && s4.requests[1].score == 1
    ensures |s4.requests| == 2 && s4.requests[0] == s.requests[0] && KeyOf(s4.requests[1], 0) == FIRST
  {
    hide FirstStore;
    FirstDead(s.store);
    var r := s4.requests[1];
    assert r.seen == Answers(s2, LATE, 4, true) && r.seen[0] == 2;
    StillDead(s.store, s2);
  }

  // The increments touch the first counter's value but not its expiry.
  lemma {:induction false} StillDead(store: Store, s2: State)
    requires s2.clock == 999 && s2.store == store && Live(store, 999, FIRST, true) && !Live(store, 2001, FIRST, true)
    ensures !Live(FirstStore(s2, LATE, 4, true), 2001, FIRST, true)
  {
    SameExpiry(store, s2, 4);
  }

  lemma {:induction false} SameExpiry(store: Store, s2: State, n: nat)
    requires n <= 4 && s2.clock == 999 && s2.store == store && Live(store, 999, FIRST, true)
    ensures var store' := FirstStore(s2, LATE, n, true);
            FIRST in store' && store'[FIRST].expiresAt == store[FIRST].expiresAt
    decreases n
  {
    if n > 0 {
      SameExpiry(store, s2, n - 1);
    }
  }

  lemma {:induction false} OneAdmitted(s: State, s5: State)
    requires |s.requests| == 1 && s.requests == [EARLY.(seen := s.requests[0].seen, phase := Admitted)]
    requires |s5.requests| == 2 && s5.requests[0] == s.requests[0] && s5.requests[1].phase == Rejected
    requires FIRST in s5.store && s5.store[FIRST] == Entry(-1, None)
    ensures AtRest(s5) && !ReadsRight(s5, FIRST) && SumBy(s5.requests, AdmittedIn(FIRST)) == 1
  {
    var weight := AdmittedIn(FIRST);
    assert s5.requests == [] + [s5.requests[0]] + [s5.requests[1]];
    SumPush([], s5.requests[0], weight);
    SumPush([] + [s5.requests[0]], s5.requests[1], weight);
  }

  /**
   With increments and decrements issued so long after a request read the clock, every counter that is there at rest
   reads exactly what was admitted in its window: if and only if neither takes more than 1001 ms.
   */
  lemma {:induction false} RestExactIff(increments: nat, decrements: nat)
    ensures RestExact(increments, decrements) <==> increments <= 1001 && decrements <= 1001
  {
    hide PromptRun, RollsRun, Run, AtRest, ReadsRight;
    if increments <= 1001 && decrements <= 1001 {
      forall events: seq<Event>, key: Key ensures RestsRight(events, key, increments, decrements) {
        if PromptRun(Init, events, increments) && RollsRun(Init, events, decrements) && AtRest(Run(Init, events, true)) {
          RestReadsRight(events, increments, decrements, key);
        }
      }
    } else if increments > 1001 {
      var events := LateIncrement(increments, decrements);
      assert !RestsRight(events, FIRST, increments, decrements);
    } else {
      var events := LateRollback(increments, decrements);
      assert !RestsRight(events, FIRST, increments, decrements);
    }
  }

  // ----- The algorithm itself, over the expiring store -----

  function BaseKey(userId: string, token: string): string {
    "rate-limiting:fixed-window:" + userId + ":" + token
  }

  /** Two pairs share their counters exactly when their ids make one text. */
  lemma {:induction false} SameBaseIff(u: string, t: string, userId: string, token: string)
    ensures BaseKey(u, t) == BaseKey(userId, token) <==> u + ":" + t == userId + ":" + token
  {
    Pairs.SameRest("rate-limiting:fixed-window:", u + ":" + t, userId + ":" + token);
    assert BaseKey(u, t) == "rate-limiting:fixed-window:" + (u + ":" + t);
    assert BaseKey(userId, token) == "rate-limiting:fixed-window:" + (userId + ":" + token);
  }

  /** A pair has its counters to itself exactly when neither of its ids holds a colon. */
  lemma {:induction false} SharedCountersIff(userId: string, token: string)
    ensures (exists u: string, t: string :: (u, t) != (userId, token) && BaseKey(u, t) == BaseKey(userId, token))
            <==> ':' in userId || ':' in token
  {
    hide BaseKey;
    Pairs.SharedIff(userId, token);
    forall u: string, t: string ensures BaseKey(u, t) == BaseKey(userId, token) <==> u + ":" + t == userId + ":" + token {
      SameBaseIff(u, t, userId, token);
    }
  }

  // Every counter of every other pair whose ids hold no colon reads as before.
  ghost predicate OthersKept(before: Store, after: Store, clock: int, userId: string, token: string) {
    forall u: string, t: string, unit: Unit, start: int :: ':' !in u && ':' !in t && (u, t) != (userId, token) ==>
      Value(after, clock, Key(BaseKey(u, t), unit, start), true) == Value(before, clock, Key(BaseKey(u, t), unit, start), true)
  }

  lemma {:induction false} OthersApart(before: Store, after: Store, clock: int, userId: string, token: string)
    requires forall key: Key :: key.base != BaseKey(userId, token) ==>
               Value(after, clock, key, true) == Value(before, clock, key, true)
    ensures OthersKept(before, after, clock, userId, token)
  {
    hide BaseKey, Value;
    forall u: string, t: string | ':' !in u && ':' !in t && (u, t) != (userId, token)
      ensures BaseKey(u, t) != BaseKey(userId, token)
    {
      SameBaseIff(u, t, userId, token);
      if u + ":" + t == userId + ":" + token {
        Pairs.SamePair(userId, token, u, t);
      }
    }
  }

  // A request of the machine that has just read the clock.
  function Fresh(base: string, score: nat, limits: QuotaLimits, now: nat): Request {
    Request(base, score, limits, now, [], Running(0))
  }

  // What a summary says of one unit: the limit, what is left of it, and the end of the window.
  ghost predicate Reports(quota: Quota, store: Store, base: string, limits: QuotaLimits, now: nat, unit: Unit) {
    var key := KeyAt(base, now, unit);
    quota == Quota(LimitOf(limits, unit), LimitOf(limits, unit) - Value(store, now, key, true),
                   Some(key.start + Width(unit)))
  }

  ghost predicate ReportsAll(summary: QuotaSummary, store: Store, base: string, limits: QuotaLimits, now: nat) {
    && Reports(summary.perSecond, store, base, limits, now, Second)
    && Reports(summary.perMinute, store, base, limits, now, Minute)
    && Reports(summary.perHour, store, base, limits, now, Hour)
    && Reports(summary.perDay, store, base, limits, now, Day)
  }

  // The four counters of this instant expire 2, 61, 3601 and 86401 seconds from now.
  ghost predicate ExpireSoon(store: Store, base: string, now: nat) {
    && Expires(store, Key(base, Second, now / 1000 * 1000), now + 2000)
    && Expires(store, Key(base, Minute, now / 60000 * 60000), now + 61000)
    && Expires(store, Key(base, Hour, now / 3600000 * 3600000), now + 3601000)
    && Expires(store, Key(base, Day, now / 86400000 * 86400000), now + 86401000)
  }

  ghost predicate Expires(store: Store, key: Key, at: int) {
    key in store && store[key].expiresAt == Some(at)
  }

  lemma {:induction false} TouchesOwn(r: Request)
    ensures forall key: Key :: key.base != r.base ==> !Touches(r, key)
  {
  }

  lemma {:induction false} FirstExpire(s: State, r: Request)
    requires s.clock == r.now
    ensures ExpireSoon(FirstStore(s, r, 8, true), r.base, r.now)
  {
    hide FirstStore;
    FirstStoreValue(s, r, 8, true, KeyAt(r.base, r.now, Second));
    FirstStoreValue(s, r, 8, true, KeyAt(r.base, r.now, Minute));
    FirstStoreValue(s, r, 8, true, KeyAt(r.base, r.now, Hour));
    FirstStoreValue(s, r, 8, true, KeyAt(r.base, r.now, Day));
  }

  class FixedWindowAlgorithm {
    var clock: nat
    var store: Store

    constructor (clock: nat)
      ensures this.clock == clock && store == map[]
    {
      this.clock := clock;
      store := map[];
    }

    method IncrBy(key: Key, amount: int) returns (value: int)
      modifies this`store
      ensures store == Add(old(store), clock, key, amount, true) && value == store[key].value
    {
      var live := key in store && !(store[key].expiresAt.Some? && store[key].expiresAt.value < clock);
      value := (if live then store[key].value else 0) + amount;
      store := store[key := Entry(value, if live then store[key].expiresAt else None)];
    }

    method SetExpiry(key: Key, ttl: nat)
      modifies this`store
      ensures store == Expire(old(store), clock, key, ttl, true)
    {
      if key in store && !(store[key].expiresAt.Some? && store[key].expiresAt.value < clock) {
        store := store[key := Entry(store[key].value, Some(clock + ttl))];
      }
    }

    method Get(key: Key) returns (value: int)
      ensures value == Value(store, clock, key, true)
    {
      var live := key in store && !(store[key].expiresAt.Some? && store[key].expiresAt.value < clock);
      value := if live then store[key].value else 0;
    }

    ghost predicate Names(second: Key, minute: Key, hour: Key, day: Key, r: Request) {
      second == KeyOf(r, 0) && minute == KeyOf(r, 1) && hour == KeyOf(r, 2) && day == KeyOf(r, 3)
    }

    method IncrementAll(second: Key, minute: Key, hour: Key, day: Key, score: nat, ghost s: State, ghost r: Request)
      returns (perSecond: int, perMinute: int, perHour: int, perDay: int)
      requires Names(second, minute, hour, day, r) && r.score == score
      requires clock == s.clock && store == s.store
      modifies this`store
      ensures store == FirstStore(s, r, 4, true) && [perSecond, perMinute, perHour, perDay] == Answers(s, r, 4, true)
    {
      perSecond := IncrBy(second, score);
      perMinute := IncrBy(minute, score);
      perHour := IncrBy(hour, score);
      perDay := IncrBy(day, score);
      FourAnswers(s, r, perSecond, perMinute, perHour, perDay);
    }

    method RefreshAll(second: Key, minute: Key, hour: Key, day: Key, ghost s: State, ghost r: Request)
      requires Names(second, minute, hour, day, r)
      requires clock == s.clock && store == FirstStore(s, r, 4, true)
      modifies this`store
      ensures store == FirstStore(s, r, 8, true)
    {
      SetExpiry(second, 2000);
      assert store == FirstStore(s, r, 5, true);
      SetExpiry(minute, 61000);
      assert store == FirstStore(s, r, 6, true);
      SetExpiry(hour, 3601000);
      assert store == FirstStore(s, r, 7, true);
      SetExpiry(day, 86401000);
    }

    method RollBackAll(second: Key, minute: Key, hour: Key, day: Key, score: nat, ghost r: Request)
      requires Names(second, minute, hour, day, r) && r.score == score
      modifies this`store
      ensures store == Decrements(old(store), clock, r, 4)
    {
      var _ := IncrBy(second, 0 - score);
      assert store == Decrements(old(store), clock, r, 1);
      var _ := IncrBy(minute, 0 - score);
      assert store == Decrements(old(store), clock, r, 2);
      var _ := IncrBy(hour, 0 - score);
      assert store == Decrements(old(store), clock, r, 3);
      var _ := IncrBy(day, 0 - score);
    }

    /** A request that no other overlaps leaves the store of the machine's thirteen commands and answers as it does. */
    method Request(userId: string, token: string, score: nat, limits: QuotaLimits)
      returns (result: Result<QuotaSummary, TooManyRequests>)
      modifies this`store
      ensures var s := State(clock, old(store), [Fresh(BaseKey(userId, token), score, limits, clock)]);
              && store == Issues(s, 0, 13, true).store
              && (result.Success? <==> Issues(s, 0, 13, true).requests[0].phase == Admitted)
              && (result.Success? <==> Fits(s, s.requests[0], true))
      ensures forall key: Key :: Value(store, clock, key, true) == Value(old(store), clock, key, true)
                + if result.Success? && Touches(Fresh(BaseKey(userId, token), score, limits, clock), key)
                  then score else 0
      ensures result.Success? ==> ReportsAll(result.value, store, BaseKey(userId, token), limits, clock)
      ensures OthersKept(old(store), store, clock, userId, token)
      ensures result.Success? ==> ExpireSoon(store, BaseKey(userId, token), clock)
    {
      hide Issue, Issues, FirstStore, Decrements, Fits, Value, Answers, Touches, OverLimit, ReportsAll, ExpireSoon, BaseKey;
      var base := BaseKey(userId, token);
      var now := clock;
      var second := Key(base, Second, now / 1000 * 1000);
      var minute := Key(base, Minute, now / 60000 * 60000);
      var hour := Key(base, Hour, now / 3600000 * 3600000);
      var day := Key(base, Day, now / 86400000 * 86400000);
      ghost var r := Fresh(base, score, limits, now);
      ghost var s := State(clock, store, [r]);
      ServedAlone(s, r);
      assert forall key: Key :: key.base != base ==> !Touches(r, key) by { TouchesOwn(r); }
      OthersApart(store, Issues(s, 0, 13, true).store, clock, userId, token);
      FirstExpire(s, r);

      var consumedPerSecond, consumedPerMinute, consumedPerHour, consumedPerDay :=
        IncrementAll(second, minute, hour, day, score, s, r);
      OverAny(s, r, consumedPerSecond, consumedPerMinute, consumedPerHour, consumedPerDay);
      RefreshAll(second, minute, hour, day, s, r);

      var overLimit := consumedPerSecond > limits.perSecond || consumedPerMinute > limits.perMinute
                       || consumedPerHour > limits.perHour || consumedPerDay > limits.perDay;
      if overLimit {
        RollBackAll(second, minute, hour, day, score, r);
        return Failure(TooManyRequests);
      }
      SeenAreReported(s, r, consumedPerSecond, consumedPerMinute, consumedPerHour, consumedPerDay);
      return Success(QuotaSummary(
        Quota(limits.perSecond, limits.perSecond - consumedPerSecond, Some(now / 1000 * 1000 + 1000)),
        Quota(limits.perMinute, limits.perMinute - consumedPerMinute, Some(now / 60000 * 60000 + 60000)),
        Quota(limits.perHour, limits.perHour - consumedPerHour, Some(now / 3600000 * 3600000 + 3600000)),
        Quota(limits.perDay, limits.perDay - consumedPerDay, Some(now / 86400000 * 86400000 + 86400000))));
    }

    /** Reads the same four counters and changes nothing. */
    method GetQuota(userId: string, token: string, limits: QuotaLimits) returns (summary: QuotaSummary)
      ensures ReportsAll(summary, store, BaseKey(userId, token), limits, clock)
    {
      var base := BaseKey(userId, token);
      var now := clock;
      var consumedPerSecond := Get(Key(base, Second, now / 1000 * 1000));
      var consumedPerMinute := Get(Key(base, Minute, now / 60000 * 60000));
      var consumedPerHour := Get(Key(base, Hour, now / 3600000 * 3600000));
      var consumedPerDay := Get(Key(base, Day, now / 86400000 * 86400000));
      summary := QuotaSummary(
        Quota(limits.perSecond, limits.perSecond - consumedPerSecond, Some(now / 1000 * 1000 + 1000)),
        Quota(limits.perMinute, limits.perMinute - consumedPerMinute, Some(now / 60000 * 60000 + 60000)),
        Quota(limits.perHour, limits.perHour - consumedPerHour, Some(now / 3600000 * 3600000 + 3600000)),
        Quota(limits.perDay, limits.perDay - consumedPerDay, Some(now / 86400000 * 86400000 + 86400000)));
    }
  }

  lemma {:induction false} FourAnswers(s: State, r: Request, second: int, minute: int, hour: int, day: int)
    requires FirstStore(s, r, 1, true)[KeyOf(r, 0)].value == second
    requires FirstStore(s, r, 2, true)[KeyOf(r, 1)].value == minute
    requires FirstStore(s, r, 3, true)[KeyOf(r, 2)].value == hour
    requires FirstStore(s, r, 4, true)[KeyOf(r, 3)].value == day
    ensures Answers(s, r, 4, true) == [second, minute, hour, day]
  {
    FirstStoreValue(s, r, 0, true, KeyOf(r, 0));
    FirstStoreValue(s, r, 1, true, KeyOf(r, 1));
    FirstStoreValue(s, r, 2, true, KeyOf(r, 2));
    FirstStoreValue(s, r, 3, true, KeyOf(r, 3));
  }

  function Decrements(store: Store, clock: int, r: Request, n: nat): Store
    requires n <= 4
  {
    if n == 0 then store
    else Add(Decrements(store, clock, r, n - 1), clock, KeyOf(r, n - 1), 0 - r.score, true)
  }

  lemma {:induction false} RefusedStores(s: State, n: nat)
    requires |s.requests| == 1 && Starts(s, 0) && !Fits(s, s.requests[0], true) && n <= 4
    ensures var r := s.requests[0];
            Issues(s, 0, 9 + n, true).store == Decrements(FirstStore(s, r, 8, true), s.clock, r, n)
  {
    hide FirstStore, Fits, Add, Issue, Value, Share, Answers;
    if n == 0 {
      Decision(s, 0, true);
    } else {
      RefusedStores(s, n - 1);
      LastCommands(s, 0, n - 1, true);
      DecrementStore(Issues(s, 0, 8 + n, true), n - 1, s.requests[0]);
    }
  }

  lemma {:induction false} DecrementStore(t: State, i: nat, r: Request)
    requires |t.requests| == 1 && i < 4 && t.requests[0].phase == Running(9 + i)
    requires t.requests[0].base == r.base && t.requests[0].now == r.now && t.requests[0].score == r.score
    ensures Issue(t, 0, true).store == Add(t.store, t.clock, KeyOf(r, i), 0 - r.score, true)
  {
  }

  lemma {:induction false} AdmittedStays(s: State, n: nat)
    requires |s.requests| == 1 && Starts(s, 0) && Fits(s, s.requests[0], true)
    ensures Issues(s, 0, 9 + n, true) == Issues(s, 0, 9, true)
  {
    hide FirstStore, Fits;
    if n > 0 {
      AdmittedStays(s, n - 1);
      Decision(s, 0, true);
    }
  }

  // All that the thirteen commands of a lone request leave behind.
  lemma {:induction false} ServedAlone(s: State, r: Request)
    requires s.requests == [r] && Starts(s, 0)
    ensures var s' := Issues(s, 0, 13, true);
            && |s'.requests| == 1
            && s'.requests[0].phase == (if Fits(s, r, true) then Admitted else Rejected)
            && s'.store == (if Fits(s, r, true) then FirstStore(s, r, 8, true)
                            else Decrements(FirstStore(s, r, 8, true), s.clock, r, 4))
            && forall key: Key :: Value(s'.store, s.clock, key, true) == Value(s.store, s.clock, key, true)
                 + if Fits(s, r, true) && Touches(r, key) then r.score else 0
  {
    hide Issue, FirstStore, Decrements, Fits, Value, Answers, Touches;
    LoneRequest(s, 0, true);
    if Fits(s, r, true) {
      Decision(s, 0, true);
      AdmittedStays(s, 4);
    } else {
      RefusedStores(s, 4);
    }
  }

  lemma {:induction false} OverAny(s: State, r: Request, second: int, minute: int, hour: int, day: int)
    requires [second, minute, hour, day] == Answers(s, r, 4, true)
    ensures Fits(s, r, true) <==> second <= r.limits.perSecond && minute <= r.limits.perMinute
                                  && hour <= r.limits.perHour && day <= r.limits.perDay
  {
    hide Fits, Answers;
    FitsIsNotOver(s, r, true);
    var seen := Answers(s, r, 4, true);
    assert seen[0] == second && seen[1] == minute && seen[2] == hour && seen[3] == day;
  }

  lemma {:induction false} SeenAreReported(s: State, r: Request, second: int, minute: int, hour: int, day: int)
    requires [second, minute, hour, day] == Answers(s, r, 4, true) && s.clock == r.now
    ensures ReportsAll(
              QuotaSummary(
                Quota(r.limits.perSecond, r.limits.perSecond - second, Some(r.now / 1000 * 1000 + 1000)),
                Quota(r.limits.perMinute, r.limits.perMinute - minute, Some(r.now / 60000 * 60000 + 60000)),
                Quota(r.limits.perHour, r.limits.perHour - hour, Some(r.now / 3600000 * 3600000 + 3600000)),
                Quota(r.limits.perDay, r.limits.perDay - day, Some(r.now / 86400000 * 86400000 + 86400000))),
              FirstStore(s, r, 8, true), r.base, r.limits, r.now)
  {
    hide FirstStore, Answers, Value;
    SeenAreValues(s, r);
    var seen := Answers(s, r, 4, true);
    assert seen[Index(Second)] == second && seen[Index(Minute)] == minute;
    assert seen[Index(Hour)] == hour && seen[Index(Day)] == day;
  }

  lemma {:induction false} SeenAreValues(s: State, r: Request)
    ensures forall unit: Unit :: Answers(s, r, 4, true)[Index(unit)]
              == Value(FirstStore(s, r, 8, true), s.clock, KeyAt(r.base, r.now, unit), true)
  {
    forall unit: Unit
      ensures Answers(s, r, 4, true)[Index(unit)]
              == Value(FirstStore(s, r, 8, true), s.clock, KeyAt(r.base, r.now, unit), true)
    {
      FirstStoreValue(s, r, 8, true, KeyAt(r.base, r.now, unit));
    }
  }
}
