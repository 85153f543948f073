/**
 The sliding window as a machine of atomic store commands. A request reads the clock once; then, for each of the four
 sets, it prunes the set, adds itself, reads the set and refreshes its expiry; then it decides, and a refused request
 issues four removals. A quota call reads the clock once and prunes the four sets. Commands of any number of calls
 interleave in any order.
 */
module SlidingInterleaved {
  import opened Quotas
  import opened Sums
  import opened Wrappers
  import SW = SlidingWindow

  // `pc` counts the commands issued.
  datatype Phase = Running(pc: nat) | Admitted | Rejected | Looked

  // A request, or a quota call. `seen` holds what the reads of the sets have added up to.
  datatype Process = Process(asks: bool, base: string, score: nat, limits: QuotaLimits, now: nat, seen: seq<int>,
                             phase: Phase)

  datatype State = State(clock: nat, sets: SW.Sets, calls: seq<Process>)

  datatype Event =
    | Arrive(asks: bool, base: string, score: nat, limits: QuotaLimits)
    | Advance(ms: nat)
    | Command(id: nat)

  const Init := State(0, map[], [])

  function KeyOf(r: Process, i: nat): SW.SetKey
    requires i < 4
  {
    SW.SetKey(r.base, UNITS[i])
  }

  function Own(r: Process): SW.Member {
    SW.Member(r.now, r.score)
  }

  predicate OverLimit(r: Process)
    requires |r.seen| == 4
  {
    || r.seen[0] > r.limits.perSecond
    || r.seen[1] > r.limits.perMinute
    || r.seen[2] > r.limits.perHour
    || r.seen[3] > r.limits.perDay
  }

  // What a command of a running request does to the sets, before its decision and after it.
  function AskSets(sets: SW.Sets, clock: nat, r: Process, pc: nat): SW.Sets
    requires pc < 16
  {
    var key := KeyOf(r, pc / 4);
    match pc % 4
    case 0 => SW.Remove(sets, clock, key, SW.UpTo(r.now - Width(key.unit)))
    case 1 => SW.Insert(sets, clock, key, Own(r))
    case 2 => sets
    case _ => SW.SetExpiry(sets, clock, key, Ttl(key.unit))
  }

  function AskSeen(sets: SW.Sets, clock: nat, r: Process, pc: nat): seq<int>
    requires pc < 16
  {
    if pc % 4 == 2 then r.seen + [SumBy(SW.Members(sets, clock, KeyOf(r, pc / 4)), SW.ScoreOf())] else r.seen
  }

  function Issue(s: State, id: nat): (s': State)
    requires id < |s.calls|
    ensures |s'.calls| == |s.calls|
  {
    var r := s.calls[id];
    if !r.phase.Running? then s else
    var pc := r.phase.pc;
    if !r.asks then
      if pc < 4 then
        var key := KeyOf(r, pc);
        State(s.clock, SW.Remove(s.sets, s.clock, key, SW.UpTo(r.now - Width(key.unit))),
              s.calls[id := r.(phase := if pc == 3 then Looked else Running(pc + 1))])
      else s
    else if pc < 16 then
      State(s.clock, AskSets(s.sets, s.clock, r, pc),
            s.calls[id := r.(seen := AskSeen(s.sets, s.clock, r, pc), phase := Running(pc + 1))])
    else if pc == 16 then
      s.(calls := s.calls[id := r.(phase := if |r.seen| == 4 && OverLimit(r) then Running(17) else Admitted)])
    else if pc < 21 then
      State(s.clock, SW.Remove(s.sets, s.clock, KeyOf(r, pc - 17), SW.OnlyBefore(r.now)),
            s.calls[id := r.(phase := if pc == 20 then Rejected else Running(pc + 1))])
    else s
  }

  function Next(s: State, e: Event): State {
    match e
    case Arrive(asks, base, score, limits) =>
      s.(calls := s.calls + [Process(asks, base, score, limits, s.clock, [], Running(0))])
    case Advance(ms) => s.(clock := s.clock + ms)
    case Command(id) => if id < |s.calls| then Issue(s, id) else s
  }

  function Run(s: State, events: seq<Event>): State
    decreases events
  {
    if events == [] then s else Run(Next(s, events[0]), events[1..])
  }

  // The clock does not pass `delay` after a request read it before that request has settled.
  predicate Prompt(s: State, e: Event, delay: nat) {
    e.Advance? ==>
      forall j :: 0 <= j < |s.calls| && s.calls[j].asks && s.calls[j].phase.Running? ==>
        s.clock + e.ms <= s.calls[j].now + delay
  }

  predicate PromptRun(s: State, events: seq<Event>, delay: nat)
    decreases events
  {
    events == [] || (Prompt(s, events[0], delay) && PromptRun(Next(s, events[0]), events[1..], delay))
  }

  // ----- How far a request is with one set -----

  // Past the command at `step` of the i-th set.
  predicate Past(r: Process, i: nat, step: nat) {
    r.asks && (r.phase.Running? ==> 4 * i + step < r.phase.pc)
  }

  predicate Added(r: Process, i: nat) {
    Past(r, i, 1)
  }

  predicate Ranged(r: Process, i: nat) {
    Past(r, i, 2)
  }

  predicate Kept(r: Process, i: nat) {
    Past(r, i, 3)
  }

  predicate Pending(r: Process, i: nat) {
    Added(r, i) && !Kept(r, i)
  }

  // ----- One set, on its own -----

  type OneSet = Option<SW.SortedSet>

  function At(sets: SW.Sets, key: SW.SetKey): OneSet {
    if key in sets then Some(sets[key]) else None
  }

  predicate Dead(z: OneSet, clock: int) {
    z.Some? && z.value.expiresAt.Some? && z.value.expiresAt.value < clock
  }

  function Held(z: OneSet, clock: int): seq<SW.Member> {
    if z.Some? && !Dead(z, clock) then z.value.members else []
  }

  function RemoveFrom(z: OneSet, clock: int, gone: SW.Member -> bool): OneSet {
    var kept := SW.Without(Held(z, clock), gone);
    if kept == [] then None
    else Some(SW.SortedSet(kept, if Held(z, clock) != [] then z.value.expiresAt else None))
  }

  function InsertInto(z: OneSet, clock: int, m: SW.Member): OneSet {
    var held := Held(z, clock);
    Some(SW.SortedSet(if m in held then held else held + [m], if held != [] then z.value.expiresAt else None))
  }

  function ExpireAt(z: OneSet, clock: int, ttl: nat): OneSet {
    if Held(z, clock) != [] then Some(z.value.(expiresAt := Some(clock + ttl))) else z
  }

  lemma {:induction false} CommandsAt(sets: SW.Sets, clock: int, key: SW.SetKey, gone: SW.Member -> bool, m: SW.Member,
                                      ttl: nat, other: SW.SetKey)
    ensures SW.Members(sets, clock, other) == Held(At(sets, other), clock)
    ensures At(SW.Remove(sets, clock, key, gone), other)
            == if other == key then RemoveFrom(At(sets, key), clock, gone) else At(sets, other)
    ensures At(SW.Insert(sets, clock, key, m), other)
            == if other == key then InsertInto(At(sets, key), clock, m) else At(sets, other)
    ensures At(SW.SetExpiry(sets, clock, key, ttl), other)
            == if other == key then ExpireAt(At(sets, key), clock, ttl) else At(sets, other)
  {
  }

  // ----- What is kept of one set -----

  // The j-th call is a request on this base.
  predicate On(calls: seq<Process>, j: int, base: string) {
    0 <= j < |calls| && calls[j].asks && calls[j].base == base
  }

  predicate Urgent(calls: seq<Process>, clock: nat, delay: nat) {
    forall j :: 0 <= j < |calls| ==>
      calls[j].now <= clock && (calls[j].asks && calls[j].phase.Running? ==> clock <= calls[j].now + delay)
  }

  // Whoever has joined within the last window is there.
  ghost predicate Present(calls: seq<Process>, z: OneSet, base: string, i: nat, clock: nat)
    requires i < 4
  {
    forall j :: On(calls, j, base) && Added(calls[j], i) && clock - Width(UNITS[i]) < calls[j].now ==>
      z.Some? && Own(calls[j]) in z.value.members
  }

  ghost predicate Joined(calls: seq<Process>, base: string, i: nat, m: SW.Member) {
    exists j :: On(calls, j, base) && Added(calls[j], i) && Own(calls[j]) == m
  }

  // Nobody is there who has not joined.
  ghost predicate Origins(calls: seq<Process>, z: OneSet, base: string, i: nat) {
    z.Some? ==> SW.NoRepeats(z.value.members) && forall m :: m in z.value.members ==> Joined(calls, base, i, m)
  }

  // An expiry outlasts everyone who has refreshed it.
  ghost predicate Lasting(calls: seq<Process>, z: OneSet, base: string, i: nat)
    requires i < 4
  {
    z.Some? && z.value.expiresAt.Some? ==>
      forall j :: On(calls, j, base) && Kept(calls[j], i) ==> calls[j].now + Ttl(UNITS[i]) <= z.value.expiresAt.value
  }

  // And, while requests have joined and not yet refreshed it, a second past one of them.
  ghost predicate Waiting(calls: seq<Process>, z: OneSet, base: string, i: nat) {
    z.Some? && z.value.expiresAt.Some? ==>
      (exists j :: On(calls, j, base) && Pending(calls[j], i)) ==>
        exists j :: On(calls, j, base) && Pending(calls[j], i) && calls[j].now + 1000 <= z.value.expiresAt.value
  }

  // What a request has pruned stays away until it joins.
  ghost predicate Pruned(calls: seq<Process>, z: OneSet, base: string, i: nat, clock: nat)
    requires i < 4
  {
    forall j, m :: On(calls, j, base) && calls[j].phase == Running(4 * i + 1) && m in Held(z, clock) ==>
      calls[j].now - Width(UNITS[i]) < m.time
  }

  ghost predicate Fine(calls: seq<Process>, z: OneSet, base: string, i: nat, clock: nat)
    requires i < 4
  {
    && Present(calls, z, base, i, clock) && Origins(calls, z, base, i) && Lasting(calls, z, base, i)
    && Waiting(calls, z, base, i) && Pruned(calls, z, base, i, clock)
  }

  // As long as someone of the last window is there, the set has not expired.
  lemma {:induction false} StillAlive(calls: seq<Process>, z: OneSet, base: string, i: nat, clock: nat, delay: nat, j: int)
    requires i < 4 && Fine(calls, z, base, i, clock) && Urgent(calls, clock, delay) && delay < 1000
    requires On(calls, j, base) && Added(calls[j], i) && clock - Width(UNITS[i]) < calls[j].now
    ensures z.Some? && Held(z, clock) == z.value.members && Own(calls[j]) in Held(z, clock)
  {
  }

  lemma {:induction false} SameIdentity(calls: seq<Process>, id: nat, r: Process)
    requires id < |calls| && r.asks == calls[id].asks && r.base == calls[id].base
    ensures forall j, base :: On(calls[id := r], j, base) <==> On(calls, j, base)
  {
  }

  // The request is the same but for how far it is.
  predicate Moves(r: Process, r': Process) {
    r'.asks == r.asks && r'.base == r.base && r'.score == r.score && r'.now == r.now && r'.limits == r.limits
  }

  // A command that neither joins the set nor refreshes it, nor has just pruned it.
  predicate Passes(r: Process, r': Process, i: nat) {
    && Moves(r, r') && (Added(r', i) <==> Added(r, i)) && (Kept(r', i) <==> Kept(r, i))
  }

  lemma {:induction false} JoinedAfter(calls: seq<Process>, calls': seq<Process>, base: string, i: nat, m: SW.Member)
    requires Joined(calls, base, i, m) && |calls'| == |calls|
    requires forall j :: 0 <= j < |calls| ==> Own(calls'[j]) == Own(calls[j]) && Passes(calls[j], calls'[j], i)
    ensures Joined(calls', base, i, m)
  {
    hide Added, Kept;
    var j :| On(calls, j, base) && Added(calls[j], i) && Own(calls[j]) == m;
    assert On(calls', j, base) && Added(calls'[j], i) && Own(calls'[j]) == m;
  }

  lemma {:induction false} FineAfterOther(calls: seq<Process>, id: nat, r': Process, z: OneSet, base: string, i: nat,
                                         clock: nat)
    requires i < 4 && id < |calls| && Fine(calls, z, base, i, clock) && Passes(calls[id], r', i)
    requires r'.phase == Running(4 * i + 1) && r'.base == base && r'.asks ==> calls[id].phase == Running(4 * i + 1)
    ensures Fine(calls[id := r'], z, base, i, clock)
  {
    hide Added, Kept, Joined, Waiting, SW.NoRepeats;
    var calls' := calls[id := r'];
    SameIdentity(calls, id, r');
    assert forall j :: 0 <= j < |calls| ==> Own(calls'[j]) == Own(calls[j]) && Passes(calls[j], calls'[j], i);
    forall m | Joined(calls, base, i, m) ensures Joined(calls', base, i, m) {
      JoinedAfter(calls, calls', base, i, m);
    }
    WaitingAfter(calls, calls', z, base, i);
  }

  lemma {:induction false} WaitingAfter(calls: seq<Process>, calls': seq<Process>, z: OneSet, base: string, i: nat)
    requires Waiting(calls, z, base, i) && |calls'| == |calls|
    requires forall j :: 0 <= j < |calls| ==> Passes(calls[j], calls'[j], i)
    ensures Waiting(calls', z, base, i)
  {
    hide Added, Kept;
    if z.Some? && z.value.expiresAt.Some? {
      if k :| On(calls', k, base) && Pending(calls'[k], i) {
        assert On(calls, k, base) && Pending(calls[k], i);
        var j :| On(calls, j, base) && Pending(calls[j], i) && calls[j].now + 1000 <= z.value.expiresAt.value;
        assert On(calls', j, base) && Pending(calls'[j], i);
      }
    }
  }

  // ----- One command on the set -----

  lemma {:induction false} FineRemoved(calls: seq<Process>, z: OneSet, base: string, i: nat, clock: nat, delay: nat,
                                       gone: SW.Member -> bool)
    requires i < 4 && Fine(calls, z, base, i, clock) && Urgent(calls, clock, delay) && delay < 1000
    requires forall m :: gone(m) ==> m.time <= clock - Width(UNITS[i])
    ensures var z' := RemoveFrom(z, clock, gone);
            Fine(calls, z', base, i, clock) && forall m :: m in Held(z', clock) ==> m in Held(z, clock) && !gone(m)
  {
    hide Added, Kept, Joined, SW.NoRepeats;
    var z' := RemoveFrom(z, clock, gone);
    SW.WithoutKeeps(Held(z, clock), gone);
    forall j | On(calls, j, base) && Added(calls[j], i) && clock - Width(UNITS[i]) < calls[j].now
      ensures z'.Some? && Own(calls[j]) in z'.value.members
    {
      StillAlive(calls, z, base, i, clock, delay, j);
    }
  }

  lemma {:induction false} FinePruned(calls: seq<Process>, id: nat, r': Process, z: OneSet, base: string, i: nat,
                                      clock: nat, delay: nat)
    requires i < 4 && Fine(calls, z, base, i, clock) && Urgent(calls, clock, delay) && delay < 1000
    requires On(calls, id, base) && Passes(calls[id], r', i) && r'.phase == Running(4 * i + 1)
    ensures Fine(calls[id := r'], RemoveFrom(z, clock, SW.UpTo(r'.now - Width(UNITS[i]))), base, i, clock)
  {
    hide Added, Kept, Joined, SW.NoRepeats, Present, Lasting, Waiting, Origins, RemoveFrom;
    var gone := SW.UpTo(r'.now - Width(UNITS[i]));
    var z' := RemoveFrom(z, clock, gone);
    FineRemoved(calls, z, base, i, clock, delay, gone);
    PassesAll(calls, id, r', z', base, i, clock);
    SameIdentity(calls, id, r');
  }

  // What does not speak of the pruning follows a request that only passes.
  lemma {:induction false} PassesAll(calls: seq<Process>, id: nat, r': Process, z: OneSet, base: string, i: nat, clock: nat)
    requires i < 4 && id < |calls| && Fine(calls, z, base, i, clock) && Passes(calls[id], r', i)
    ensures var calls' := calls[id := r'];
            Present(calls', z, base, i, clock) && Origins(calls', z, base, i) && Lasting(calls', z, base, i)
            && Waiting(calls', z, base, i)
  {
    hide Added, Kept;
    var calls' := calls[id := r'];
    SameIdentity(calls, id, r');
    assert forall j :: 0 <= j < |calls| ==> Own(calls'[j]) == Own(calls[j]) && Passes(calls[j], calls'[j], i);
    forall m | Joined(calls, base, i, m) ensures Joined(calls', base, i, m) {
      var j :| On(calls, j, base) && Added(calls[j], i) && Own(calls[j]) == m;
      assert On(calls', j, base) && Added(calls'[j], i) && Own(calls'[j]) == m;
    }
    WaitingAfter(calls, calls', z, base, i);
  }

  // The request that joins.
  predicate Joins(r: Process, r': Process, i: nat) {
    Moves(r, r') && r.asks && r.phase == Running(4 * i + 1) && r'.phase == Running(4 * i + 2)
  }

  // Whoever is there when nobody waits has refreshed the expiry.
  lemma {:induction false} JoinedInTime(calls: seq<Process>, id: nat, z: OneSet, base: string, i: nat, clock: nat)
    requires i < 4 && Fine(calls, z, base, i, clock) && Held(z, clock) != []
    requires On(calls, id, base) && calls[id].phase == Running(4 * i + 1)
    requires z.value.expiresAt.Some? && !exists j :: On(calls, j, base) && Pending(calls[j], i)
    ensures calls[id].now + 1000 <= z.value.expiresAt.value
  {
    var m := Held(z, clock)[0];
    assert m in Held(z, clock) && Joined(calls, base, i, m);
    var j :| On(calls, j, base) && Added(calls[j], i) && Own(calls[j]) == m;
    assert !Pending(calls[j], i) && Kept(calls[j], i);
    assert Width(UNITS[i]) + 1000 == Ttl(UNITS[i]);
  }

  lemma {:induction false} FineJoined(calls: seq<Process>, id: nat, r': Process, z: OneSet, base: string, i: nat,
                                      clock: nat, delay: nat)
    requires i < 4 && Fine(calls, z, base, i, clock) && Urgent(calls, clock, delay) && delay < 1000
    requires On(calls, id, base) && Joins(calls[id], r', i)
    ensures Fine(calls[id := r'], InsertInto(z, clock, Own(r')), base, i, clock)
  {
    hide Joined, SW.NoRepeats, Lasting, Waiting;
    var calls', z' := calls[id := r'], InsertInto(z, clock, Own(r'));
    SameIdentity(calls, id, r');
    forall j | On(calls', j, base) && Added(calls'[j], i) && clock - Width(UNITS[i]) < calls'[j].now
      ensures Own(calls'[j]) in z'.value.members
    {
      if j != id {
        StillAlive(calls, z, base, i, clock, delay, j);
      }
    }
    JoinedOrigins(calls, id, r', z, base, i, clock);
    JoinedLasting(calls, id, r', z, base, i, clock);
    JoinedWaiting(calls, id, r', z, base, i, clock);
    forall j, m | On(calls', j, base) && calls'[j].phase == Running(4 * i + 1) && m in Held(z', clock)
      ensures calls'[j].now - Width(UNITS[i]) < m.time
    {
      assert On(calls, j, base) && calls[j] == calls'[j] && On(calls, id, base);
      assert m == Own(r') || m in Held(z, clock);
    }
  }

  lemma {:induction false} JoinedOrigins(calls: seq<Process>, id: nat, r': Process, z: OneSet, base: string, i: nat,
                                         clock: nat)
    requires i < 4 && Origins(calls, z, base, i) && On(calls, id, base) && Joins(calls[id], r', i)
    ensures Origins(calls[id := r'], InsertInto(z, clock, Own(r')), base, i)
  {
    var calls', z' := calls[id := r'], InsertInto(z, clock, Own(r'));
    SameIdentity(calls, id, r');
    forall m | m in z'.value.members ensures Joined(calls', base, i, m) {
      if m == Own(r') {
        assert On(calls', id, base) && Added(calls'[id], i);
      } else {
        assert Joined(calls, base, i, m);
        var j :| On(calls, j, base) && Added(calls[j], i) && Own(calls[j]) == m;
        assert j != id && On(calls', j, base) && Added(calls'[j], i) && Own(calls'[j]) == m;
      }
    }
  }

  lemma {:induction false} JoinedLasting(calls: seq<Process>, id: nat, r': Process, z: OneSet, base: string, i: nat,
                                         clock: nat)
    requires i < 4 && Lasting(calls, z, base, i) && On(calls, id, base) && Joins(calls[id], r', i)
    ensures Lasting(calls[id := r'], InsertInto(z, clock, Own(r')), base, i)
  {
    SameIdentity(calls, id, r');
  }

  lemma {:induction false} JoinedWaiting(calls: seq<Process>, id: nat, r': Process, z: OneSet, base: string, i: nat,
                                         clock: nat)
    requires i < 4 && Fine(calls, z, base, i, clock) && On(calls, id, base) && Joins(calls[id], r', i)
    ensures Waiting(calls[id := r'], InsertInto(z, clock, Own(r')), base, i)
  {
    hide Present, Origins, Lasting, Pruned;
    var calls', z' := calls[id := r'], InsertInto(z, clock, Own(r'));
    SameIdentity(calls, id, r');
    if z'.value.expiresAt.Some? {
      if exists j :: On(calls, j, base) && Pending(calls[j], i) {
        var j :| On(calls, j, base) && Pending(calls[j], i) && calls[j].now + 1000 <= z.value.expiresAt.value;
        assert j != id && On(calls', j, base) && Pending(calls'[j], i);
      } else {
        JoinedInTime(calls, id, z, base, i, clock);
        assert On(calls', id, base) && Pending(calls'[id], i);
      }
    }
  }

  // The request that refreshes the expiry.
  predicate Refreshes(r: Process, r': Process, i: nat) {
    Moves(r, r') && r.asks && r.phase == Running(4 * i + 3) && r'.phase == Running(4 * i + 4)
  }

  lemma {:induction false} FineRefreshed(calls: seq<Process>, id: nat, r': Process, z: OneSet, base: string, i: nat,
                                         clock: nat, delay: nat)
    requires i < 4 && Fine(calls, z, base, i, clock) && Urgent(calls, clock, delay) && delay < 1000
    requires On(calls, id, base) && Refreshes(calls[id], r', i)
    ensures Fine(calls[id := r'], ExpireAt(z, clock, Ttl(UNITS[i])), base, i, clock)
  {
    hide Lasting, Waiting, Origins, Pruned;
    var calls', z' := calls[id := r'], ExpireAt(z, clock, Ttl(UNITS[i]));
    SameIdentity(calls, id, r');
    assert Added(r', i) && Added(calls[id], i) && r'.now == calls[id].now;
    StillAlive(calls, z, base, i, clock, delay, id);
    assert z'.value.members == z.value.members && z'.value.expiresAt == Some(clock + Ttl(UNITS[i]));
    RefreshedOrigins(calls, id, r', z, z', base, i);
    RefreshedLasting(calls', z', base, i, clock) by {
      assert forall j :: 0 <= j < |calls| ==> calls'[j].now == calls[j].now;
    }
    RefreshedPruned(calls, id, r', z, z', base, i, clock);
  }

  lemma {:induction false} RefreshedOrigins(calls: seq<Process>, id: nat, r': Process, z: OneSet, z': OneSet, base: string,
                                            i: nat)
    requires i < 4 && Origins(calls, z, base, i) && On(calls, id, base) && Refreshes(calls[id], r', i)
    requires z.Some? && z'.Some? && z'.value.members == z.value.members
    ensures Origins(calls[id := r'], z', base, i)
  {
    var calls' := calls[id := r'];
    SameIdentity(calls, id, r');
    forall m | Joined(calls, base, i, m) ensures Joined(calls', base, i, m) {
      var j :| On(calls, j, base) && Added(calls[j], i) && Own(calls[j]) == m;
      assert On(calls', j, base) && Added(calls'[j], i) && Own(calls'[j]) == m;
    }
  }

  lemma {:induction false} RefreshedLasting(calls: seq<Process>, z: OneSet, base: string, i: nat, clock: nat)
    requires i < 4 && z.Some? && z.value.expiresAt == Some(clock + Ttl(UNITS[i]))
    requires forall j :: 0 <= j < |calls| ==> calls[j].now <= clock
    ensures Lasting(calls, z, base, i) && Waiting(calls, z, base, i)
  {
    if j :| On(calls, j, base) && Pending(calls[j], i) {
      assert calls[j].now + 1000 <= z.value.expiresAt.value;
    }
  }

  lemma {:induction false} RefreshedPruned(calls: seq<Process>, id: nat, r': Process, z: OneSet, z': OneSet, base: string,
                                           i: nat, clock: nat)
    requires i < 4 && Pruned(calls, z, base, i, clock) && On(calls, id, base) && Refreshes(calls[id], r', i)
    requires Held(z', clock) == Held(z, clock)
    ensures Pruned(calls[id := r'], z', base, i, clock)
  {
    SameIdentity(calls, id, r');
  }

  lemma {:induction false} FineArrived(calls: seq<Process>, r: Process, z: OneSet, base: string, i: nat, clock: nat)
    requires i < 4 && Fine(calls, z, base, i, clock) && r.phase == Running(0)
    ensures Fine(calls + [r], z, base, i, clock)
  {
    hide SW.NoRepeats;
    var calls' := calls + [r];
    assert forall j :: On(calls', j, base) && j != |calls| ==> On(calls, j, base) && calls'[j] == calls[j];
    forall m | Joined(calls, base, i, m) ensures Joined(calls', base, i, m) {
      var j :| On(calls, j, base) && Added(calls[j], i) && Own(calls[j]) == m;
      assert On(calls', j, base) && calls'[j] == calls[j];
    }
    if z.Some? && z.value.expiresAt.Some? {
      if k :| On(calls', k, base) && Pending(calls'[k], i) {
        assert On(calls, k, base) && Pending(calls[k], i);
        var j :| On(calls, j, base) && Pending(calls[j], i) && calls[j].now + 1000 <= z.value.expiresAt.value;
        assert On(calls', j, base) && calls'[j] == calls[j];
      }
    }
  }

  lemma {:induction false} FineLater(calls: seq<Process>, z: OneSet, base: string, i: nat, clock: nat, later: nat)
    requires i < 4 && Fine(calls, z, base, i, clock) && clock <= later
    ensures Fine(calls, z, base, i, later)
  {
    hide Added, Kept, Joined, SW.NoRepeats, Waiting, Lasting;
  }

  // ----- Every command -----

  ghost predicate AllFine(s: State) {
    forall base: string, i: nat :: i < 4 ==> FineAt(s, base, i)
  }

  ghost predicate FineAt(s: State, base: string, i: nat)
    requires i < 4
  {
    Fine(s.calls, At(s.sets, SW.SetKey(base, UNITS[i])), base, i, s.clock)
  }

  // A request's command before its decision, as one of the four kinds it can be.
  lemma {:induction false} AskFine(s: State, id: nat, base: string, i: nat, delay: nat)
    requires i < 4 && FineAt(s, base, i) && Urgent(s.calls, s.clock, delay) && delay < 1000
    requires id < |s.calls| && s.calls[id].asks && s.calls[id].phase.Running? && s.calls[id].phase.pc < 16
    ensures FineAt(Issue(s, id), base, i)
  {
    hide Fine, SW.Remove, SW.Insert, SW.SetExpiry, SW.Members, RemoveFrom, InsertInto, ExpireAt, SW.UpTo;
    var r, key, s' := s.calls[id], SW.SetKey(base, UNITS[i]), Issue(s, id);
    var r', pc := s'.calls[id], r.phase.pc;
    CommandsAt(s.sets, s.clock, KeyOf(r, pc / 4), SW.UpTo(r.now - Width(UNITS[pc / 4])), Own(r), Ttl(UNITS[pc / 4]), key);
    UnitsDiffer(pc / 4, i);
    if r.base == base && pc / 4 == i {
      assert pc == 4 * i + pc % 4;
      match pc % 4
      case 0 => FinePruned(s.calls, id, r', At(s.sets, key), base, i, s.clock, delay);
      case 1 => FineJoined(s.calls, id, r', At(s.sets, key), base, i, s.clock, delay);
      case 2 => FineAfterOther(s.calls, id, r', At(s.sets, key), base, i, s.clock);
      case _ => FineRefreshed(s.calls, id, r', At(s.sets, key), base, i, s.clock, delay);
    } else if r.base == base {
      FineAfterOther(s.calls, id, r', At(s.sets, key), base, i, s.clock);
    } else {
      FineElsewhere(s.calls, id, r', At(s.sets, key), base, i, s.clock);
    }
  }

  lemma {:induction false} UnitsDiffer(i: nat, j: nat)
    requires i < 4 && j < 4
    ensures UNITS[i] == UNITS[j] <==> i == j
  {
  }

  // A call on another base.
  lemma {:induction false} FineElsewhere(calls: seq<Process>, id: nat, r': Process, z: OneSet, base: string, i: nat,
                                        clock: nat)
    requires i < 4 && id < |calls| && Fine(calls, z, base, i, clock) && Moves(calls[id], r')
    requires !On(calls, id, base)
    ensures Fine(calls[id := r'], z, base, i, clock)
  {
    hide Added, Kept, SW.NoRepeats;
    var calls' := calls[id := r'];
    SameIdentity(calls, id, r');
    assert forall j :: On(calls, j, base) ==> calls'[j] == calls[j];
    forall m | Joined(calls, base, i, m) ensures Joined(calls', base, i, m) {
      var j :| On(calls, j, base) && Added(calls[j], i) && Own(calls[j]) == m;
      assert On(calls', j, base) && Added(calls'[j], i) && Own(calls'[j]) == m;
    }
    if z.Some? && z.value.expiresAt.Some? {
      if k :| On(calls', k, base) && Pending(calls'[k], i) {
        assert On(calls, k, base) && Pending(calls[k], i);
        var j :| On(calls, j, base) && Pending(calls[j], i) && calls[j].now + 1000 <= z.value.expiresAt.value;
        assert On(calls', j, base) && Pending(calls'[j], i);
      }
    }
  }

  // A removal that reaches no further back than the last window, and a call that passes.
  lemma {:induction false} RemovalFine(s: State, id: nat, r': Process, key: SW.SetKey, gone: SW.Member -> bool,
                                       base: string, i: nat, delay: nat)
    requires i < 4 && FineAt(s, base, i) && Urgent(s.calls, s.clock, delay) && delay < 1000
    requires id < |s.calls| && Moves(s.calls[id], r') && (s.calls[id].asks ==> Passes(s.calls[id], r', i))
    requires r'.asks ==> r'.phase != Running(4 * i + 1)
    requires forall m :: gone(m) ==> m.time <= s.clock - Width(key.unit)
    ensures FineAt(State(s.clock, SW.Remove(s.sets, s.clock, key, gone), s.calls[id := r']), base, i)
  {
    hide Fine, SW.Remove, SW.Insert, SW.SetExpiry, SW.Members, RemoveFrom, InsertInto, ExpireAt, Passes;
    var own := SW.SetKey(base, UNITS[i]);
    CommandsAt(s.sets, s.clock, key, gone, Own(r'), 0, own);
    var z := At(s.sets, own);
    if own == key {
      FineRemoved(s.calls, z, base, i, s.clock, delay, gone);
      z := RemoveFrom(z, s.clock, gone);
    }
    if On(s.calls, id, base) {
      FineAfterOther(s.calls, id, r', z, base, i, s.clock);
    } else {
      FineElsewhere(s.calls, id, r', z, base, i, s.clock);
    }
  }

  lemma {:induction false} IssueFine(s: State, id: nat, base: string, i: nat, delay: nat)
    requires i < 4 && FineAt(s, base, i) && Urgent(s.calls, s.clock, delay) && delay < 1000 && id < |s.calls|
    ensures FineAt(Issue(s, id), base, i)
  {
    hide Fine, SW.Remove, SW.Insert, SW.SetExpiry, SW.Members;
    var r, r' := s.calls[id], Issue(s, id).calls[id];
    if r.phase.Running? {
      var pc := r.phase.pc;
      if r.asks && pc < 16 {
        AskFine(s, id, base, i, delay);
      } else if r.asks && pc == 16 {
        if On(s.calls, id, base) {
          FineAfterOther(s.calls, id, r', At(s.sets, SW.SetKey(base, UNITS[i])), base, i, s.clock);
        } else {
          FineElsewhere(s.calls, id, r', At(s.sets, SW.SetKey(base, UNITS[i])), base, i, s.clock);
        }
      } else if r.asks && pc < 21 {
        RemovalFine(s, id, r', KeyOf(r, pc - 17), SW.OnlyBefore(r.now), base, i, delay);
      } else if !r.asks && pc < 4 {
        RemovalFine(s, id, r', KeyOf(r, pc), SW.UpTo(r.now - Width(UNITS[pc])), base, i, delay);
      }
    }
  }

  lemma {:induction false} StepFine(s: State, e: Event, delay: nat)
    requires AllFine(s) && Urgent(s.calls, s.clock, delay) && delay < 1000 && Prompt(s, e, delay)
    ensures AllFine(Next(s, e)) && Urgent(Next(s, e).calls, Next(s, e).clock, delay)
  {
    hide Fine, Issue;
    var s' := Next(s, e);
    forall base: string, i: nat | i < 4 ensures FineAt(s', base, i) {
      assert FineAt(s, base, i);
      var z := At(s.sets, SW.SetKey(base, UNITS[i]));
      match e
      case Arrive(asks, other, score, limits) =>
        FineArrived(s.calls, s'.calls[|s.calls|], z, base, i, s.clock);
      case Advance(ms) => FineLater(s.calls, z, base, i, s.clock, s'.clock);
      case Command(id) =>
        if id < |s.calls| {
          IssueFine(s, id, base, i, delay);
        }
    }
    if e.Command? && e.id < |s.calls| {
      IssueMoves(s, e.id);
    }
  }

  // A command changes its own call, and only how far that is.
  lemma {:induction false} IssueMoves(s: State, id: nat)
    requires id < |s.calls|
    ensures var s' := Issue(s, id);
            && s'.clock == s.clock && |s'.calls| == |s.calls| && s'.calls == s.calls[id := s'.calls[id]]
            && Moves(s.calls[id], s'.calls[id]) && (s'.calls[id].phase.Running? ==> s.calls[id].phase.Running?)
  {
    hide SW.Remove, SW.Insert, SW.SetExpiry, SW.Members;
  }

  lemma {:induction false} RunFine(s: State, events: seq<Event>, delay: nat)
    requires AllFine(s) && Urgent(s.calls, s.clock, delay) && delay < 1000 && PromptRun(s, events, delay)
    ensures AllFine(Run(s, events)) && Urgent(Run(s, events).calls, Run(s, events).clock, delay)
    decreases events
  {
    hide AllFine, Urgent, Next, Prompt;
    if events != [] {
      StepFine(s, events[0], delay);
      RunFine(Next(s, events[0]), events[1..], delay);
    }
  }

  lemma {:induction false} InitFine(delay: nat)
    ensures AllFine(Init) && Urgent(Init.calls, Init.clock, delay)
  {
  }

  // ----- The bound -----

  // What the phase says of the reads so far, and the decision of them.
  ghost predicate WellFormed(r: Process) {
    r.asks ==>
      match r.phase
      case Running(pc) => pc <= 20 && |r.seen| == (if pc <= 16 then (pc + 1) / 4 else 4) && (16 < pc ==> OverLimit(r))
      case Admitted => |r.seen| == 4 && !OverLimit(r)
      case Rejected => |r.seen| == 4 && OverLimit(r)
      case Looked => false
  }

  predicate Between(r: Process, base: string, from: int, to: int) {
    r.asks && r.base == base && from < r.now <= to
  }

  // Read the set, and found it within the limit.
  function Counting(base: string, i: nat, limit: int, from: int, to: int): Process -> int {
    (r: Process) =>
      if Between(r, base, from, to) && Ranged(r, i) && i < |r.seen| && r.seen[i] <= limit then r.score else 0
  }

  function AdmittedIn(base: string, from: int, to: int): Process -> int {
    (r: Process) => if Between(r, base, from, to) && r.phase == Admitted then r.score else 0
  }

  // Those that have read the set, as its members.
  function Readers(calls: seq<Process>, base: string, i: nat, from: int, to: int): seq<SW.Member> {
    if calls == [] then []
    else
      var last := calls[|calls| - 1];
      Readers(calls[..|calls| - 1], base, i, from, to)
      + if Between(last, base, from, to) && Ranged(last, i) then [Own(last)] else []
  }

  // No two requests on the base ask for one positive score in one instant.
  ghost predicate Telling(calls: seq<Process>, base: string) {
    forall j, k :: On(calls, j, base) && On(calls, k, base) && j < k && Own(calls[j]) == Own(calls[k]) ==>
      calls[j].score == 0
  }

  lemma {:induction false} ReaderIs(calls: seq<Process>, base: string, i: nat, from: int, to: int, m: SW.Member)
    requires m in Readers(calls, base, i, from, to)
    ensures exists j :: On(calls, j, base) && Between(calls[j], base, from, to) && Ranged(calls[j], i) && Own(calls[j]) == m
    decreases |calls|
  {
    var before, last := calls[..|calls| - 1], calls[|calls| - 1];
    if m in Readers(before, base, i, from, to) {
      ReaderIs(before, base, i, from, to, m);
      var j :| On(before, j, base) && Between(before[j], base, from, to) && Ranged(before[j], i) && Own(before[j]) == m;
      assert On(calls, j, base) && calls[j] == before[j];
    } else {
      assert On(calls, |calls| - 1, base);
    }
  }

  lemma {:induction false} ReadersTelling(calls: seq<Process>, base: string, i: nat, from: int, to: int)
    requires Telling(calls, base)
    ensures SW.Telling(Readers(calls, base, i, from, to))
    decreases |calls|
  {
    if calls != [] {
      hide SW.Telling;
      var before, last := calls[..|calls| - 1], calls[|calls| - 1];
      assert forall j :: On(before, j, base) ==> On(calls, j, base) && calls[j] == before[j];
      ReadersTelling(before, base, i, from, to);
      var readers := Readers(before, base, i, from, to);
      if Between(last, base, from, to) {
        if Own(last) in readers {
          ReaderIs(before, base, i, from, to, Own(last));
          assert On(calls, |calls| - 1, base);
        }
        SW.TellingPush(readers, Own(last));
      }
      assert readers + [] == readers;
    } else {
      assert Readers(calls, base, i, from, to) == [];
    }
  }

  lemma {:induction false} CountingIsRead(calls: seq<Process>, base: string, i: nat, limit: int, from: int, to: int)
    ensures SumBy(calls, Counting(base, i, limit, from, to)) <= SumBy(Readers(calls, base, i, from, to), SW.ScoreOf())
    decreases |calls|
  {
    if calls != [] {
      var before, last := calls[..|calls| - 1], calls[|calls| - 1];
      assert calls == before + [last];
      CountingIsRead(before, base, i, limit, from, to);
      SumPush(before, last, Counting(base, i, limit, from, to));
      SumPush(Readers(before, base, i, from, to), Own(last), SW.ScoreOf());
      assert Readers(before, base, i, from, to) + [] == Readers(before, base, i, from, to);
    }
  }

  // A list that tells its repetitions apart sums to no more than a set that holds all of it.
  lemma {:induction false} SumWithin(some: seq<SW.Member>, all: seq<SW.Member>)
    requires SW.Telling(some) && SW.NoRepeats(all) && forall m :: m in some ==> m in all
    ensures SumBy(some, SW.ScoreOf()) <= SumBy(all, SW.ScoreOf())
    decreases |some|
  {
    if some == [] {
      SumNonNegative(all, SW.ScoreOf());
    } else {
      hide SW.Telling, SW.NoRepeats;
      var m, rest := some[0], some[1..];
      assert some == [m] + rest;
      SW.TellingTail(some);
      if m.score == 0 {
        SumWithin(rest, all);
      } else {
        var fewer := SW.TakeOut(all, m);
        SumWithin(rest, fewer);
      }
    }
  }

  // The read of one request counts everyone else who has read in the interval that it closes.
  lemma {:induction false} ReadCounts(s: State, id: nat, base: string, i: nat, delay: nat, from: int, to: int)
    requires i < 4 && FineAt(s, base, i) && Urgent(s.calls, s.clock, delay) && delay < 1000 && Telling(s.calls, base)
    requires On(s.calls, id, base) && s.calls[id].phase == Running(4 * i + 2)
    requires from < s.calls[id].now <= to && to + delay <= from + Width(UNITS[i])
    ensures var s' := Issue(s, id);
            SumBy(Readers(s'.calls, base, i, from, to), SW.ScoreOf())
            <= SumBy(SW.Members(s.sets, s.clock, SW.SetKey(base, UNITS[i])), SW.ScoreOf())
  {
    hide Fine, SW.Remove, SW.Insert, SW.SetExpiry, SW.Members, SW.NoRepeats, SW.Telling;
    var s', key := Issue(s, id), SW.SetKey(base, UNITS[i]);
    IssueMoves(s, id);
    var readers := Readers(s'.calls, base, i, from, to);
    TellingAfter(s.calls, s'.calls, base);
    ReadersTelling(s'.calls, base, i, from, to);
    CommandsAt(s.sets, s.clock, key, SW.UpTo(0), Own(s.calls[id]), 0, key);
    forall m | m in readers ensures m in Held(At(s.sets, key), s.clock) {
      ReaderIs(s'.calls, base, i, from, to, m);
      var j :| On(s'.calls, j, base) && Between(s'.calls[j], base, from, to) && Ranged(s'.calls[j], i)
               && Own(s'.calls[j]) == m;
      assert On(s.calls, j, base) && Added(s.calls[j], i) && Own(s.calls[j]) == m;
      StillAlive(s.calls, At(s.sets, key), base, i, s.clock, delay, j);
    }
    HeldOnce(s.calls, At(s.sets, key), base, i, s.clock);
    SumWithin(readers, Held(At(s.sets, key), s.clock));
  }

  lemma {:induction false} HeldOnce(calls: seq<Process>, z: OneSet, base: string, i: nat, clock: nat)
    requires i < 4 && Fine(calls, z, base, i, clock)
    ensures SW.NoRepeats(Held(z, clock))
  {
  }

  lemma {:induction false} TellingAfter(calls: seq<Process>, calls': seq<Process>, base: string)
    requires |calls| <= |calls'| && forall j :: 0 <= j < |calls| ==> Moves(calls[j], calls'[j])
    ensures Telling(calls', base) ==> Telling(calls, base)
    ensures |calls'| == |calls| && Telling(calls, base) ==> Telling(calls', base)
  {
    assert forall j :: 0 <= j < |calls| ==> (On(calls, j, base) <==> On(calls', j, base)) && Own(calls[j]) == Own(calls'[j]);
  }

  lemma {:induction false} IssueCounted(s: State, id: nat, base: string, i: nat, delay: nat, limit: int, from: int, to: int)
    requires i < 4 && FineAt(s, base, i) && Urgent(s.calls, s.clock, delay) && delay < 1000 && Telling(s.calls, base)
    requires id < |s.calls| && WellFormed(s.calls[id]) && to + delay <= from + Width(UNITS[i])
    requires SumBy(s.calls, Counting(base, i, limit, from, to)) <= limit
    ensures SumBy(Issue(s, id).calls, Counting(base, i, limit, from, to)) <= limit
    ensures WellFormed(Issue(s, id).calls[id])
  {
    hide FineAt, Urgent, Issue, Counting, WellFormed;
    var s', weight := Issue(s, id), Counting(base, i, limit, from, to);
    var r, r' := s.calls[id], s'.calls[id];
    IssueMoves(s, id);
    SumUpdate(s.calls, id, r', weight);
    IssueReads(s, id, base, i, limit, from, to);
    if weight(r') > weight(r) {
      ReadCounts(s, id, base, i, delay, from, to);
      CountingIsRead(s'.calls, base, i, limit, from, to);
    }
  }

  // Only the read of the set makes a request count more, and then what it reads is within the limit.
  lemma {:induction false} IssueReads(s: State, id: nat, base: string, i: nat, limit: int, from: int, to: int)
    requires i < 4 && id < |s.calls| && WellFormed(s.calls[id])
    ensures var r, r', weight := s.calls[id], Issue(s, id).calls[id], Counting(base, i, limit, from, to);
            && WellFormed(r')
            && (weight(r') > weight(r) ==>
                 && Between(r, base, from, to) && r.phase == Running(4 * i + 2)
                 && SumBy(SW.Members(s.sets, s.clock, SW.SetKey(base, UNITS[i])), SW.ScoreOf()) <= limit)
  {
    hide SW.Remove, SW.Insert, SW.SetExpiry, SW.Members;
    if s.calls[id].phase.Running? {
      UnitsDiffer(s.calls[id].phase.pc / 4 % 4, i);
    }
  }

  ghost predicate AllWellFormed(calls: seq<Process>) {
    forall j :: 0 <= j < |calls| ==> WellFormed(calls[j])
  }

  lemma {:induction false} StepCounted(s: State, e: Event, base: string, i: nat, delay: nat, limit: nat, from: int, to: int)
    requires i < 4 && AllFine(s) && Urgent(s.calls, s.clock, delay) && delay < 1000 && Telling(s.calls, base)
    requires AllWellFormed(s.calls) && to + delay <= from + Width(UNITS[i])
    requires SumBy(s.calls, Counting(base, i, limit, from, to)) <= limit
    ensures SumBy(Next(s, e).calls, Counting(base, i, limit, from, to)) <= limit && AllWellFormed(Next(s, e).calls)
  {
    hide FineAt, Urgent, Issue, WellFormed, Counting;
    match e
    case Arrive(asks, other, score, limits) =>
      var r := Process(asks, other, score, limits, s.clock, [], Running(0));
      SumPush(s.calls, r, Counting(base, i, limit, from, to));
      NewCountsNothing(r, base, i, limit, from, to);
    case Advance(ms) =>
    case Command(id) =>
      if id < |s.calls| {
        IssueMoves(s, id);
        assert FineAt(s, base, i);
        IssueCounted(s, id, base, i, delay, limit, from, to);
      }
  }

  lemma {:induction false} NewCountsNothing(r: Process, base: string, i: nat, limit: int, from: int, to: int)
    requires r.phase == Running(0) && r.seen == []
    ensures Counting(base, i, limit, from, to)(r) == 0 && WellFormed(r)
  {
  }

  // Calls only ever move on, and new ones come after them.
  lemma {:induction false} RunMoves(s: State, events: seq<Event>)
    ensures |s.calls| <= |Run(s, events).calls|
    ensures forall j :: 0 <= j < |s.calls| ==> Moves(s.calls[j], Run(s, events).calls[j])
    decreases events
  {
    if events != [] {
      hide Issue, Moves;
      StepMoves(s, events[0]);
      RunMoves(Next(s, events[0]), events[1..]);
      var s1, s2 := Next(s, events[0]), Run(s, events);
      forall j | 0 <= j < |s.calls| ensures Moves(s.calls[j], s2.calls[j]) {
        MovesOn(s.calls[j], s1.calls[j], s2.calls[j]);
      }
    } else {
      assert forall r: Process :: Moves(r, r);
    }
  }

  lemma {:induction false} StepMoves(s: State, e: Event)
    ensures |s.calls| <= |Next(s, e).calls| && forall j :: 0 <= j < |s.calls| ==> Moves(s.calls[j], Next(s, e).calls[j])
  {
    hide Issue;
    if e.Command? && e.id < |s.calls| {
      IssueMoves(s, e.id);
    }
  }

  lemma {:induction false} MovesOn(a: Process, b: Process, c: Process)
    requires Moves(a, b) && Moves(b, c)
    ensures Moves(a, c)
  {
  }

  lemma {:induction false} RunCounted(s: State, events: seq<Event>, base: string, i: nat, delay: nat, limit: nat, from: int,
                                      to: int)
    requires i < 4 && AllFine(s) && Urgent(s.calls, s.clock, delay) && delay < 1000 && PromptRun(s, events, delay)
    requires Telling(Run(s, events).calls, base) && AllWellFormed(s.calls) && to + delay <= from + Width(UNITS[i])
    requires SumBy(s.calls, Counting(base, i, limit, from, to)) <= limit
    ensures SumBy(Run(s, events).calls, Counting(base, i, limit, from, to)) <= limit
    ensures AllWellFormed(Run(s, events).calls)
    decreases events
  {
    hide AllFine, Urgent, Next, Prompt, Telling, AllWellFormed, Counting;
    if events != [] {
      RunMoves(s, events);
      TellingAfter(s.calls, Run(s, events).calls, base);
      StepFine(s, events[0], delay);
      StepCounted(s, events[0], base, i, delay, limit, from, to);
      RunCounted(Next(s, events[0]), events[1..], base, i, delay, limit, from, to);
    }
  }

  ghost predicate LimitedTo(calls: seq<Process>, base: string, unit: Unit, limit: int) {
    forall j :: On(calls, j, base) ==> LimitOf(calls[j].limits, unit) <= limit
  }

  /**
   In every interleaving in which each request settles within `delay` ms of reading the clock, at most the limit is
   admitted in every interval that is shorter than the window by `delay`.
   */
  lemma {:induction false} IntervalBound(events: seq<Event>, delay: nat, base: string, unit: Unit, from: int, to: int,
                                         limit: nat)
    requires delay < 1000 && PromptRun(Init, events, delay) && Telling(Run(Init, events).calls, base)
    requires LimitedTo(Run(Init, events).calls, base, unit, limit) && to + delay <= from + Width(unit)
    ensures SumBy(Run(Init, events).calls, AdmittedIn(base, from, to)) <= limit
  {
    hide Run, Telling;
    var calls, i := Run(Init, events).calls, Index(unit);
    InitFine(delay);
    RunCounted(Init, events, base, i, delay, limit, from, to);
    forall r | r in calls ensures AdmittedIn(base, from, to)(r) <= Counting(base, i, limit, from, to)(r) {
      var j :| 0 <= j < |calls| && calls[j] == r;
      if AdmittedIn(base, from, to)(r) > 0 {
        assert On(calls, j, base) && WellFormed(r);
        AdmittedWasWithin(r, unit);
      }
    }
    SumMono(calls, AdmittedIn(base, from, to), Counting(base, i, limit, from, to));
  }

  lemma {:induction false} AdmittedWasWithin(r: Process, unit: Unit)
    requires r.asks && r.phase == Admitted && WellFormed(r)
    ensures |r.seen| == 4 && r.seen[Index(unit)] <= LimitOf(r.limits, unit)
  {
  }

  // ----- A request whose commands run one after the other -----

  function Issues(s: State, id: nat, n: nat): (s': State)
    requires id < |s.calls|
    ensures |s'.calls| == |s.calls|
  {
    if n == 0 then s else Issue(Issues(s, id, n - 1), id)
  }

  // The i-th set once a request has pruned and joined it, and once it has refreshed its expiry.
  function JoinedSet(z: OneSet, clock: nat, r: Process, i: nat): OneSet
    requires i < 4
  {
    InsertInto(RemoveFrom(z, clock, SW.UpTo(r.now - Width(UNITS[i]))), clock, Own(r))
  }

  function ReadOf(s: State, r: Process, i: nat): int
    requires i < 4
  {
    SumBy(Held(JoinedSet(At(s.sets, KeyOf(r, i)), s.clock, r, i), s.clock), SW.ScoreOf())
  }

  // The state of a lone request once it is done with its first `i` sets.
  ghost predicate Done(s: State, s': State, id: nat, i: nat)
    requires id < |s.calls| && i <= 4
  {
    var r := s.calls[id];
    && s'.clock == s.clock && |s'.calls| == |s.calls|
    && s'.calls == s.calls[id := r.(seen := s'.calls[id].seen, phase := Running(4 * i))]
    && |s'.calls[id].seen| == i && (forall k :: 0 <= k < i ==> s'.calls[id].seen[k] == ReadOf(s, r, k))
    && (forall key: SW.SetKey :: key.base != r.base ==> At(s'.sets, key) == At(s.sets, key))
    && (forall k :: i <= k < 4 ==> At(s'.sets, KeyOf(r, k)) == At(s.sets, KeyOf(r, k)))
    && (forall k :: 0 <= k < i ==>
          At(s'.sets, KeyOf(r, k)) == ExpireAt(JoinedSet(At(s.sets, KeyOf(r, k)), s.clock, r, k), s.clock, Ttl(UNITS[k])))
  }

  lemma {:induction false} AskStep(s: State, id: nat, i: nat, step: nat)
    requires id < |s.calls| && s.calls[id].asks && i < 4 && step < 4 && s.calls[id].phase == Running(4 * i + step)
    ensures var r, key := s.calls[id], KeyOf(s.calls[id], i);
            var sets := match step
                        case 0 => SW.Remove(s.sets, s.clock, key, SW.UpTo(r.now - Width(UNITS[i])))
                        case 1 => SW.Insert(s.sets, s.clock, key, Own(r))
                        case 2 => s.sets
                        case _ => SW.SetExpiry(s.sets, s.clock, key, Ttl(UNITS[i]));
            var seen := if step == 2 then r.seen + [SumBy(SW.Members(s.sets, s.clock, key), SW.ScoreOf())] else r.seen;
            Issue(s, id) == State(s.clock, sets, s.calls[id := r.(seen := seen, phase := Running(4 * i + step + 1))])
  {
    hide SW.Remove, SW.Insert, SW.SetExpiry, SW.Members;
    assert (4 * i + step) / 4 == i && (4 * i + step) % 4 == step;
  }

  lemma {:induction false} FourIssued(s: State, id: nat)
    requires id < |s.calls|
    ensures Issues(s, id, 4) == Issue(Issue(Issue(Issue(s, id), id), id), id)
  {
    hide Issue;
    IssuedNext(s, id, 0);
    IssuedNext(s, id, 1);
    IssuedNext(s, id, 2);
    IssuedNext(s, id, 3);
  }

  lemma {:induction false} IssuedNext(s: State, id: nat, n: nat)
    requires id < |s.calls|
    ensures Issues(s, id, n + 1) == Issue(Issues(s, id, n), id) && Issues(s, id, 0) == s
  {
    hide Issue;
  }

  // The four commands of a request on one set, uninterrupted.
  lemma {:induction false} OneSetIssued(s: State, id: nat, i: nat)
    requires id < |s.calls| && s.calls[id].asks && i < 4 && s.calls[id].phase == Running(4 * i)
    ensures var r, key, clock := s.calls[id], KeyOf(s.calls[id], i), s.clock;
            var joined := SW.Insert(SW.Remove(s.sets, clock, key, SW.UpTo(r.now - Width(UNITS[i]))), clock, key, Own(r));
            Issues(s, id, 4)
            == State(clock, SW.SetExpiry(joined, clock, key, Ttl(UNITS[i])),
                     s.calls[id := r.(seen := r.seen + [SumBy(SW.Members(joined, clock, key), SW.ScoreOf())],
                                      phase := Running(4 * i + 4))])
  {
    hide Issue, SW.Remove, SW.Insert, SW.SetExpiry, SW.Members;
    FourIssued(s, id);
    AskStep(s, id, i, 0);
    AskStep(Issue(s, id), id, i, 1);
    AskStep(Issue(Issue(s, id), id), id, i, 2);
    AskStep(Issue(Issue(Issue(s, id), id), id), id, i, 3);
  }

  lemma {:induction false} JoinedAt(sets: SW.Sets, clock: nat, r: Process, i: nat, key: SW.SetKey)
    requires i < 4
    ensures var own := KeyOf(r, i);
            var joined := SW.Insert(SW.Remove(sets, clock, own, SW.UpTo(r.now - Width(UNITS[i]))), clock, own, Own(r));
            && At(SW.SetExpiry(joined, clock, own, Ttl(UNITS[i])), key)
               == (if key == own then ExpireAt(JoinedSet(At(sets, own), clock, r, i), clock, Ttl(UNITS[i]))
                   else At(sets, key))
            && SW.Members(joined, clock, own) == Held(JoinedSet(At(sets, own), clock, r, i), clock)
  {
    hide SW.Remove, SW.Insert, SW.SetExpiry, SW.Members, RemoveFrom, InsertInto, ExpireAt, Held;
    var own, gone := KeyOf(r, i), SW.UpTo(r.now - Width(UNITS[i]));
    var s1 := SW.Remove(sets, clock, own, gone);
    var s2 := SW.Insert(s1, clock, own, Own(r));
    CommandsAt(sets, clock, own, gone, Own(r), Ttl(UNITS[i]), key);
    CommandsAt(sets, clock, own, gone, Own(r), Ttl(UNITS[i]), own);
    CommandsAt(s1, clock, own, gone, Own(r), Ttl(UNITS[i]), key);
    CommandsAt(s1, clock, own, gone, Own(r), Ttl(UNITS[i]), own);
    CommandsAt(s2, clock, own, gone, Own(r), Ttl(UNITS[i]), key);
    CommandsAt(s2, clock, own, gone, Own(r), Ttl(UNITS[i]), own);
  }

  lemma {:induction false} OneSetDone(s: State, s1: State, id: nat, i: nat)
    requires id < |s.calls| && s.calls[id].asks && i < 4 && Done(s, s1, id, i)
    ensures Done(s, Issues(s1, id, 4), id, i + 1)
  {
    hide Issues, JoinedSet, ExpireAt, Held, SW.Remove, SW.Insert, SW.SetExpiry, SW.Members;
    var r, s5 := s.calls[id], Issues(s1, id, 4);
    OneSetIssued(s1, id, i);
    forall key: SW.SetKey
      ensures At(s5.sets, key)
              == if key == KeyOf(r, i) then ExpireAt(JoinedSet(At(s1.sets, key), s.clock, r, i), s.clock, Ttl(UNITS[i]))
                 else At(s1.sets, key)
    {
      JoinedAt(s1.sets, s.clock, s1.calls[id], i, key);
      SameJoin(At(s1.sets, key), s.clock, r, s1.calls[id], i);
    }
    JoinedAt(s1.sets, s.clock, s1.calls[id], i, KeyOf(r, i));
    SameJoin(At(s1.sets, KeyOf(r, i)), s.clock, r, s1.calls[id], i);
    forall k | 0 <= k < 4 && k != i ensures KeyOf(r, k) != KeyOf(r, i) {
      UnitsDiffer(k, i);
    }
  }

  lemma {:induction false} SameJoin(z: OneSet, clock: nat, r: Process, r': Process, i: nat)
    requires i < 4 && r.now == r'.now && r.score == r'.score
    ensures JoinedSet(z, clock, r, i) == JoinedSet(z, clock, r', i)
  {
  }

  lemma {:induction false} IssuesAppend(s: State, id: nat, m: nat, n: nat)
    requires id < |s.calls|
    ensures Issues(Issues(s, id, m), id, n) == Issues(s, id, m + n)
    decreases n
  {
    hide Issue;
    if n > 0 {
      IssuesAppend(s, id, m, n - 1);
    }
  }

  ghost predicate Starts(s: State, id: nat) {
    id < |s.calls| && s.calls[id].asks && s.calls[id].phase == Running(0) && s.calls[id].seen == []
  }

  lemma {:induction false} AllDone(s: State, id: nat, i: nat)
    requires Starts(s, id) && i <= 4
    ensures Done(s, Issues(s, id, 4 * i), id, i)
    decreases i
  {
    hide Done, Issues, Issue;
    if i == 0 {
      NoneDone(s, id);
    } else {
      AllDone(s, id, i - 1);
      OneSetDone(s, Issues(s, id, 4 * (i - 1)), id, i - 1);
      IssuesAppend(s, id, 4 * (i - 1), 4);
    }
  }

  lemma {:induction false} NoneDone(s: State, id: nat)
    requires Starts(s, id)
    ensures Done(s, Issues(s, id, 0), id, 0)
  {
    assert s.calls[id := s.calls[id]] == s.calls;
  }

  predicate Fits(s: State, r: Process) {
    forall unit: Unit :: ReadOf(s, r, Index(unit)) <= LimitOf(r.limits, unit)
  }

  /** A request whose commands nothing interrupts is admitted exactly when its four reads fit. */
  lemma {:induction false} AloneDecides(s: State, id: nat)
    requires Starts(s, id)
    ensures var s', r := Issues(s, id, 17), s.calls[id];
            && s'.clock == s.clock && s'.sets == Issues(s, id, 16).sets && |s'.calls| == |s.calls|
            && s'.calls == s.calls[id := r.(seen := s'.calls[id].seen,
                                            phase := if Fits(s, r) then Admitted else Running(17))]
  {
    hide ReadOf, Issue;
    AllDone(s, id, 4);
    var s1, r := Issues(s, id, 16), s.calls[id];
    var r1 := s1.calls[id];
    assert Issues(s, id, 17) == Issue(s1, id);
    DecisionIs(s1, id);
    assert forall unit: Unit :: r1.seen[Index(unit)] == ReadOf(s, r, Index(unit));
    OverIff(r1);
  }

  lemma {:induction false} DecisionIs(s: State, id: nat)
    requires id < |s.calls| && s.calls[id].asks && s.calls[id].phase == Running(16) && |s.calls[id].seen| == 4
    ensures Issue(s, id)
            == s.(calls := s.calls[id := s.calls[id].(phase := if OverLimit(s.calls[id]) then Running(17) else Admitted)])
  {
  }

  lemma {:induction false} OverIff(r: Process)
    requires |r.seen| == 4
    ensures OverLimit(r) <==> exists unit: Unit :: LimitOf(r.limits, unit) < r.seen[Index(unit)]
  {
    assert Index(Second) == 0 && Index(Minute) == 1 && Index(Hour) == 2 && Index(Day) == 3;
    if OverLimit(r) {
      var unit := if r.seen[0] > r.limits.perSecond then Second else if r.seen[1] > r.limits.perMinute then Minute
                  else if r.seen[2] > r.limits.perHour then Hour else Day;
      assert LimitOf(r.limits, unit) < r.seen[Index(unit)];
    }
  }

  // ----- It is then a call of the model without interleaving -----

  lemma {:induction false} AskOneAt(sets: SW.Sets, r: Process, i: nat, key: SW.SetKey)
    requires i < 4
    ensures At(SW.AskOne(sets, r.base, UNITS[i], r.now, r.score), key)
            == if key == KeyOf(r, i) then ExpireAt(JoinedSet(At(sets, key), r.now, r, i), r.now, Ttl(UNITS[i]))
               else At(sets, key)
  {
    hide SW.Remove, SW.Insert, SW.SetExpiry, SW.Members, JoinedSet, ExpireAt, Held;
    JoinedAt(sets, r.now, r, i, key);
  }

  lemma {:induction false} AskFourAt(sets: SW.Sets, r: Process, key: SW.SetKey)
    ensures At(SW.AskFour(sets, r.base, r.now, r.score), key)
            == if key.base == r.base
               then ExpireAt(JoinedSet(At(sets, key), r.now, r, Index(key.unit)), r.now, Ttl(key.unit))
               else At(sets, key)
  {
    hide SW.AskOne, JoinedSet, ExpireAt;
    var s1 := SW.AskOne(sets, r.base, Second, r.now, r.score);
    var s2 := SW.AskOne(s1, r.base, Minute, r.now, r.score);
    var s3 := SW.AskOne(s2, r.base, Hour, r.now, r.score);
    AskOneAt(sets, r, 0, key);
    AskOneAt(s1, r, 1, key);
    AskOneAt(s2, r, 2, key);
    AskOneAt(s3, r, 3, key);
  }

  lemma {:induction false} SameSets(a: SW.Sets, b: SW.Sets)
    requires forall key: SW.SetKey :: At(a, key) == At(b, key)
    ensures a == b
  {
    forall key: SW.SetKey ensures key in a <==> key in b {
      assert At(a, key) == At(b, key);
    }
    forall key: SW.SetKey | key in a ensures a[key] == b[key] {
      assert At(a, key) == At(b, key);
    }
  }

  lemma {:induction false} ExpiryHolds(z: OneSet, clock: nat, ttl: nat)
    ensures Held(ExpireAt(z, clock, ttl), clock) == Held(z, clock)
  {
  }

  /** Uninterrupted, and at the instant it read the clock, a request does and decides what the one call does. */
  lemma {:induction false} AloneIsServe(s: State, id: nat)
    requires Starts(s, id) && s.calls[id].now == s.clock
    ensures var s', r := Issues(s, id, 17), s.calls[id];
            var (sets, admitted) := SW.Serve(s.sets, r.base, r.now, r.score, r.limits);
            s'.sets == sets && (s'.calls[id].phase == Admitted <==> admitted)
  {
    hide SW.AskFour, SW.DropFour, JoinedSet, ExpireAt, Held, Issue;
    var r, s1 := s.calls[id], Issues(s, id, 16);
    var added := SW.AskFour(s.sets, r.base, r.now, r.score);
    AllDone(s, id, 4);
    AloneDecides(s, id);
    SW.RefusedStays(s.sets, r.base, r.now, r.score, r.limits);
    forall key: SW.SetKey ensures At(s1.sets, key) == At(added, key) {
      AskFourAt(s.sets, r, key);
      assert key.base == r.base ==> key == KeyOf(r, Index(key.unit));
    }
    SameSets(s1.sets, added);
    forall unit: Unit ensures SW.Consumed(added, r.base, unit, r.now) == ReadOf(s, r, Index(unit)) {
      var key := SW.SetKey(r.base, unit);
      AskFourAt(s.sets, r, key);
      CommandsAt(added, r.now, key, SW.UpTo(0), Own(r), 0, key);
      ExpiryHolds(JoinedSet(At(s.sets, key), r.now, r, Index(unit)), s.clock, Ttl(unit));
    }
  }

  // ----- How long a request may take -----

  ghost predicate KeepsBound(events: seq<Event>, base: string, unit: Unit, from: int, limit: nat, lost: nat) {
    var calls := Run(Init, events).calls;
    Telling(calls, base) && LimitedTo(calls, base, unit, limit) ==>
      SumBy(calls, AdmittedIn(base, from, from + Width(unit) - lost)) <= limit
  }

  // With every request settled within `delay`, the bound holds for intervals shorter than the window by `lost`.
  ghost predicate SafeAfter(delay: nat, lost: nat) {
    forall events: seq<Event>, base: string, unit: Unit, from: int, limit: nat :: PromptRun(Init, events, delay) ==>
      KeepsBound(events, base, unit, from, limit, lost)
  }

  lemma {:induction false} RunAppend(s: State, first: seq<Event>, second: seq<Event>, delay: nat)
    ensures Run(s, first + second) == Run(Run(s, first), second)
    ensures PromptRun(s, first + second, delay) <==> PromptRun(s, first, delay) && PromptRun(Run(s, first), second, delay)
    decreases first
  {
    hide Next, Prompt;
    if first == [] {
      assert first + second == second;
    } else {
      assert (first + second)[1..] == first[1..] + second;
      RunAppend(Next(s, first[0]), first[1..], second, delay);
    }
  }

  // That the events lead from one state to the other, in time.
  ghost predicate Leads(s: State, events: seq<Event>, s': State, delay: nat) {
    PromptRun(s, events, delay) && Run(s, events) == s'
  }

  lemma {:induction false} LeadsOn(s: State, first: seq<Event>, s1: State, second: seq<Event>, s2: State, delay: nat)
    requires Leads(s, first, s1, delay) && Leads(s1, second, s2, delay)
    ensures Leads(s, first + second, s2, delay)
  {
    hide Run, PromptRun;
    RunAppend(s, first, second, delay);
  }

  lemma {:induction false} LeadsNowhere(s: State, delay: nat)
    ensures Leads(s, [], s, delay)
  {
  }

  lemma {:induction false} LeadsOne(s: State, e: Event, delay: nat)
    requires Prompt(s, e, delay)
    ensures Leads(s, [e], Next(s, e), delay)
  {
    hide Next, Prompt;
    assert [e][1..] == [];
    LeadsNowhere(Next(s, e), delay);
  }

  function Repeat(id: nat, n: nat): seq<Event> {
    if n == 0 then [] else Repeat(id, n - 1) + [Command(id)]
  }

  lemma {:induction false} LeadsRepeat(s: State, id: nat, n: nat, delay: nat)
    requires id < |s.calls|
    ensures Leads(s, Repeat(id, n), Issues(s, id, n), delay)
    decreases n
  {
    hide Issue, Run, PromptRun;
    if n == 0 {
      LeadsNowhere(s, delay);
    } else {
      hide Leads;
      LeadsRepeat(s, id, n - 1, delay);
      LeadsOne(Issues(s, id, n - 1), Command(id), delay);
      LeadsOn(s, Repeat(id, n - 1), Issues(s, id, n - 1), [Command(id)], Issues(s, id, n), delay);
    }
  }

  const LIMITS := QuotaLimits(1, 9, 9, 9)

  // The two requests, one millisecond after the start and `1000 - lost` after it, and the set each finds.
  function Early(): Process {
    Process(true, "k", 1, LIMITS, 1, [], Running(0))
  }

  function Late(lost: nat): Process
    requires lost < 999
  {
    Process(true, "k", 1, LIMITS, 1000 - lost, [], Running(0))
  }

  lemma {:induction false} EarlyReads(s: State, i: nat)
    requires s.clock == 1 && s.sets == map[] && i < 4
    ensures ReadOf(s, Early(), i) == 1
    ensures ExpireAt(JoinedSet(At(s.sets, KeyOf(Early(), i)), 1, Early(), i), 1, Ttl(UNITS[i]))
            == Some(SW.SortedSet([SW.Member(1, 1)], Some(1 + Ttl(UNITS[i]))))
  {
    var m := SW.Member(1, 1);
    assert [] + [m] == [m];
    assert JoinedSet(None, 1, Early(), i) == Some(SW.SortedSet([m], None));
    assert SumBy([m], SW.ScoreOf()) == 1;
  }

  // After the quota call only the first set has lost the early request.
  ghost predicate EarlyLeft(sets: SW.Sets) {
    && At(sets, SW.SetKey("k", Second)) == None
    && forall i :: 1 <= i < 4 ==>
         At(sets, SW.SetKey("k", UNITS[i])) == Some(SW.SortedSet([SW.Member(1, 1)], Some(1 + Ttl(UNITS[i]))))
  }

  lemma {:induction false} LateReads(s: State, lost: nat, i: nat)
    requires lost < 999 && i < 4 && s.clock == 1001 && EarlyLeft(s.sets)
    ensures ReadOf(s, Late(lost), i) == if i == 0 then 1 else 2
  {
    var early, m := SW.Member(1, 1), SW.Member(1000 - lost, 1);
    var z, gone := At(s.sets, KeyOf(Late(lost), i)), SW.UpTo(1000 - lost - Width(UNITS[i]));
    assert early != m;
    if i == 0 {
      assert [] + [m] == [m];
      assert JoinedSet(z, 1001, Late(lost), i) == Some(SW.SortedSet([m], None));
      assert SumBy([m], SW.ScoreOf()) == 1;
    } else {
      WideUnits(i);
      assert Held(z, 1001) == [early];
      SW.WithoutNothing([early], gone);
      assert RemoveFrom(z, 1001, gone) == z;
      SumPush([early], m, SW.ScoreOf());
      assert SumBy([early], SW.ScoreOf()) == 1;
    }
  }

  lemma {:induction false} WideUnits(i: nat)
    requires 1 <= i < 4
    ensures 60000 <= Width(UNITS[i]) && 61000 <= Ttl(UNITS[i])
  {
  }

  // The early request is the only one there, and it has been admitted.
  ghost predicate EarlyThere(s: State) {
    && s.clock == 1 && |s.calls| == 1
    && s.calls == [Early().(seen := s.calls[0].seen, phase := Admitted)]
    && forall i :: 0 <= i < 4 ==>
         At(s.sets, SW.SetKey("k", UNITS[i])) == Some(SW.SortedSet([SW.Member(1, 1)], Some(1 + Ttl(UNITS[i]))))
  }

  lemma {:induction false} EarlyRun(delay: nat) returns (events: seq<Event>, s: State)
    ensures Leads(Init, events, s, delay) && EarlyThere(s)
  {
    hide Issues, Leads, EarlyThere;
    var wait, arrive := Advance(1), Arrive(true, "k", 1, LIMITS);
    var s1 := State(1, map[], [Early()]);
    LeadsOne(Init, wait, delay);
    LeadsOne(State(1, map[], []), arrive, delay);
    assert [] + [Early()] == [Early()];
    LeadsOn(Init, [wait], State(1, map[], []), [arrive], s1, delay);
    LeadsRepeat(s1, 0, 17, delay);
    s := Issues(s1, 0, 17);
    LeadsOn(Init, [wait] + [arrive], s1, Repeat(0, 17), s, delay);
    events := [wait] + [arrive] + Repeat(0, 17);
    EarlyAdmitted(s1);
  }

  lemma {:induction false} EarlyAdmitted(s: State)
    requires s == State(1, map[], [Early()])
    ensures EarlyThere(Issues(s, 0, 17))
  {
    hide Issues, ReadOf, JoinedSet, ExpireAt;
    AllDone(s, 0, 4);
    AloneDecides(s, 0);
    forall i | 0 <= i < 4 ensures ReadOf(s, Early(), i) == 1 {
      EarlyReads(s, i);
    }
    forall i | 0 <= i < 4
      ensures At(Issues(s, 0, 16).sets, KeyOf(Early(), i))
              == Some(SW.SortedSet([SW.Member(1, 1)], Some(1 + Ttl(UNITS[i]))))
    {
      EarlyReads(s, i);
    }
  }

  lemma {:induction false} LookPrunes(s: State)
    requires s.clock == 1001 && |s.calls| == 3 && s.calls[2] == Process(false, "k", 0, LIMITS, 1001, [], Running(0))
    requires forall i :: 0 <= i < 4 ==>
               At(s.sets, SW.SetKey("k", UNITS[i])) == Some(SW.SortedSet([SW.Member(1, 1)], Some(1 + Ttl(UNITS[i]))))
    ensures var s' := Issue(s, 2);
            && s'.clock == 1001 && s'.calls == s.calls[2 := s.calls[2].(phase := Running(1))] && EarlyLeft(s'.sets)
  {
    hide SW.Remove, SW.Insert, SW.SetExpiry;
    var s', gone := Issue(s, 2), SW.UpTo(1);
    forall i | 0 <= i < 4
      ensures At(s'.sets, SW.SetKey("k", UNITS[i]))
              == if i == 0 then None else At(s.sets, SW.SetKey("k", UNITS[i]))
    {
      UnitsDiffer(0, i);
      CommandsAt(s.sets, 1001, SW.SetKey("k", Second), gone, SW.Member(0, 0), 0, SW.SetKey("k", UNITS[i]));
      if i == 0 {
        FirstForgets(At(s.sets, SW.SetKey("k", Second)));
      }
    }
  }

  lemma {:induction false} FirstForgets(z: OneSet)
    requires z == Some(SW.SortedSet([SW.Member(1, 1)], Some(1 + Ttl(Second))))
    ensures RemoveFrom(z, 1001, SW.UpTo(1)) == None
  {
    assert Held(z, 1001) == [SW.Member(1, 1)];
    SW.WithoutKeeps([SW.Member(1, 1)], SW.UpTo(1));
    assert SW.Without([SW.Member(1, 1)], SW.UpTo(1)) == [];
  }

  // The late request reads the clock, a quota call prunes the first set, and only then are its commands issued.
  lemma {:induction false} LateRun(s: State, lost: nat, delay: nat) returns (events: seq<Event>, s': State)
    requires lost < 999 && lost < delay && EarlyThere(s)
    ensures Leads(s, events, s', delay)
    ensures |s'.calls| == 3 && s'.calls[0] == s.calls[0]
    ensures s'.calls[1] == Late(lost).(seen := s'.calls[1].seen, phase := Admitted) && !s'.calls[2].asks
  {
    hide Issues, Issue, Leads, Prompt;
    var look := Process(false, "k", 0, LIMITS, 1001, [], Running(0));
    var e1, e2, e3, e4 := Advance(999 - lost), Arrive(true, "k", 1, LIMITS), Advance(lost + 1), Arrive(false, "k", 0, LIMITS);
    var s1 := State(1000 - lost, s.sets, s.calls);
    var s2 := State(1000 - lost, s.sets, s.calls + [Late(lost)]);
    var s3 := State(1001, s.sets, s.calls + [Late(lost)]);
    var s4 := State(1001, s.sets, s.calls + [Late(lost)] + [look]);
    InTime(s, s2, lost, delay);
    LeadsOne(s, e1, delay);
    LeadsOne(s1, e2, delay);
    LeadsOne(s2, e3, delay);
    LeadsOne(s3, e4, delay);
    LeadsOn(s, [e1], s1, [e2], s2, delay);
    LeadsOn(s, [e1] + [e2], s2, [e3], s3, delay);
    LeadsOn(s, [e1] + [e2] + [e3], s3, [e4], s4, delay);
    var more;
    more, s' := LateAdmitted(s4, lost, delay);
    LeadsOn(s, [e1] + [e2] + [e3] + [e4], s4, more, s', delay);
    events := [e1] + [e2] + [e3] + [e4] + more;
  }

  lemma {:induction false} InTime(s: State, s2: State, lost: nat, delay: nat)
    requires lost < 999 && lost < delay && EarlyThere(s)
    requires s2 == State(1000 - lost, s.sets, s.calls + [Late(lost)])
    ensures Prompt(s, Advance(999 - lost), delay) && Prompt(s2, Advance(lost + 1), delay)
    ensures forall s0: State, e: Event :: !e.Advance? ==> Prompt(s0, e, delay)
  {
  }

  lemma {:induction false} LateAdmitted(s: State, lost: nat, delay: nat) returns (events: seq<Event>, s': State)
    requires lost < 999 && s.clock == 1001 && |s.calls| == 3
    requires s.calls[1] == Late(lost) && s.calls[2] == Process(false, "k", 0, LIMITS, 1001, [], Running(0))
    requires forall i :: 0 <= i < 4 ==>
               At(s.sets, SW.SetKey("k", UNITS[i])) == Some(SW.SortedSet([SW.Member(1, 1)], Some(1 + Ttl(UNITS[i]))))
    ensures Leads(s, events, s', delay)
    ensures |s'.calls| == 3 && s'.calls[0] == s.calls[0]
    ensures s'.calls[1] == Late(lost).(seen := s'.calls[1].seen, phase := Admitted) && !s'.calls[2].asks
  {
    hide Issues, Issue, Leads, ReadOf, EarlyLeft;
    LookPrunes(s);
    var s5 := Issue(s, 2);
    LeadsOne(s, Command(2), delay);
    LeadsRepeat(s5, 1, 17, delay);
    s' := Issues(s5, 1, 17);
    events := [Command(2)] + Repeat(1, 17);
    LeadsOn(s, [Command(2)], s5, Repeat(1, 17), s', delay);
    AloneDecides(s5, 1);
    forall unit: Unit ensures ReadOf(s5, Late(lost), Index(unit)) <= LimitOf(LIMITS, unit) {
      LateReads(s5, lost, Index(unit));
    }
  }

  lemma {:induction false} BothAdmitted(calls: seq<Process>, lost: nat)
    requires lost < 999 && |calls| == 3
    requires calls[0] == Early().(seen := calls[0].seen, phase := Admitted)
    requires calls[1] == Late(lost).(seen := calls[1].seen, phase := Admitted) && !calls[2].asks
    ensures Telling(calls, "k") && LimitedTo(calls, "k", Second, 1)
    ensures SumBy(calls, AdmittedIn("k", 0, 1000 - lost)) == 2
  {
    var weight := AdmittedIn("k", 0, 1000 - lost);
    assert calls == [] + [calls[0]] + [calls[1]] + [calls[2]];
    SumPush([], calls[0], weight);
    SumPush([] + [calls[0]], calls[1], weight);
    SumPush([] + [calls[0]] + [calls[1]], calls[2], weight);
  }

  lemma {:induction false} SlowOvershoots(delay: nat, lost: nat) returns (events: seq<Event>)
    requires lost < 999 && lost < delay
    ensures PromptRun(Init, events, delay) && !KeepsBound(events, "k", Second, 0, 1, lost)
  {
    hide Run, PromptRun, EarlyThere, Telling, LimitedTo;
    var early, s := EarlyRun(delay);
    var late, s' := LateRun(s, lost, delay);
    LeadsOn(Init, early, s, late, s', delay);
    events := early + late;
    EarlyIs(s);
    BothAdmitted(s'.calls, lost);
  }

  lemma {:induction false} EarlyIs(s: State)
    requires EarlyThere(s)
    ensures |s.calls| == 1 && s.calls[0] == Early().(seen := s.calls[0].seen, phase := Admitted)
  {
  }

  /**
   When requests settle within `delay` ms of reading the clock, the bound holds for all intervals shorter than the
   window by `lost` ms exactly when `delay` is no more than that; in particular, for whole windows only without delay.
   */
  lemma {:induction false} SafeAfterIff(delay: nat, lost: nat)
    requires lost < 999
    ensures SafeAfter(delay, lost) <==> delay <= lost
  {
    hide PromptRun, Run;
    if delay <= lost {
      forall events: seq<Event>, base: string, unit: Unit, from: int, limit: nat | PromptRun(Init, events, delay)
        ensures KeepsBound(events, base, unit, from, limit, lost)
      {
        var calls := Run(Init, events).calls;
        if Telling(calls, base) && LimitedTo(calls, base, unit, limit) {
          IntervalBound(events, delay, base, unit, from, from + Width(unit) - lost, limit);
        }
      }
    } else {
      var events := SlowOvershoots(delay, lost);
    }
  }
}
