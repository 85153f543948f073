/**
 The sliding window: each request prunes four sorted sets, adds itself to them, and sums what they hold. Calls on a
 key run one at a time, in the order of a clock that never goes back; several may share an instant.
 */
module SlidingWindow {
  import Pairs
  import opened Quotas
  import opened Sums
  import opened Wrappers

  // The member `${now}:${score}`, whose rank in the sorted set is `time`.
  datatype Member = Member(time: int, score: nat)

  // Members are kept in the order they were added; only their sum is ever used.
  datatype SortedSet = SortedSet(members: seq<Member>, expiresAt: Option<int>)

  datatype SetKey = SetKey(base: string, unit: Unit)

  type Sets = map<SetKey, SortedSet>

  datatype Call =
    | Ask(base: string, now: int, score: nat, limits: QuotaLimits)
    | Look(base: string, now: int)

  datatype Served = Served(base: string, time: int, score: nat, admitted: bool)

  datatype State = State(sets: Sets, history: seq<Served>)

  const Init := State(map[], [])

  function ScoreOf(): Member -> int {
    (m: Member) => m.score
  }

  function TimeOf(): Member -> int {
    (m: Member) => m.time
  }

  // ----- The store's commands -----

  // As in Redis, a set is still there at the very instant of its expiry, and gone a millisecond later.
  function Members(sets: Sets, now: int, key: SetKey): seq<Member> {
    if key in sets && !(sets[key].expiresAt.Some? && sets[key].expiresAt.value < now)
    then sets[key].members else []
  }

  function Expiry(sets: Sets, now: int, key: SetKey): Option<int> {
    if Members(sets, now, key) != [] then sets[key].expiresAt else None
  }

  function Without(members: seq<Member>, gone: Member -> bool): seq<Member> {
    if members == [] then []
    else (if gone(members[0]) then [] else [members[0]]) + Without(members[1..], gone)
  }

  // ZREMRANGEBYSCORE; a set left empty is deleted.
  function Remove(sets: Sets, now: int, key: SetKey, gone: Member -> bool): Sets {
    var kept := Without(Members(sets, now, key), gone);
    if kept == [] then sets - {key} else sets[key := SortedSet(kept, Expiry(sets, now, key))]
  }

  // ZADD; adding a member again changes nothing.
  function Insert(sets: Sets, now: int, key: SetKey, m: Member): Sets {
    var members := Members(sets, now, key);
    sets[key := SortedSet(if m in members then members else members + [m], Expiry(sets, now, key))]
  }

  function SetExpiry(sets: Sets, now: int, key: SetKey, ttl: nat): Sets {
    if Members(sets, now, key) != [] then sets[key := sets[key].(expiresAt := Some(now + ttl))] else sets
  }

  // The range from -inf to `bound`.
  function UpTo(bound: int): Member -> bool {
    (m: Member) => m.time <= bound
  }

  // The range from `from` to the exclusive `(from`, which is empty.
  function OnlyBefore(from: int): Member -> bool {
    (m: Member) => from <= m.time < from
  }

  // ----- A call -----

  function AskOne(sets: Sets, base: string, unit: Unit, now: int, score: nat): Sets {
    var key := SetKey(base, unit);
    var pruned := Remove(sets, now, key, UpTo(now - Width(unit)));
    SetExpiry(Insert(pruned, now, key, Member(now, score)), now, key, Ttl(unit))
  }

  function AskFour(sets: Sets, base: string, now: int, score: nat): Sets {
    AskOne(AskOne(AskOne(AskOne(sets, base, Second, now, score), base, Minute, now, score), base, Hour, now, score),
           base, Day, now, score)
  }

  function DropFour(sets: Sets, base: string, now: int): Sets {
    Remove(Remove(Remove(Remove(sets, now, SetKey(base, Second), OnlyBefore(now)),
                         now, SetKey(base, Minute), OnlyBefore(now)),
                  now, SetKey(base, Hour), OnlyBefore(now)),
           now, SetKey(base, Day), OnlyBefore(now))
  }

  function LookOne(sets: Sets, base: string, unit: Unit, now: int): Sets {
    Remove(sets, now, SetKey(base, unit), UpTo(now - Width(unit)))
  }

  function LookFour(sets: Sets, base: string, now: int): Sets {
    LookOne(LookOne(LookOne(LookOne(sets, base, Second, now), base, Minute, now), base, Hour, now), base, Day, now)
  }

  function Consumed(sets: Sets, base: string, unit: Unit, now: int): int {
    SumBy(Members(sets, now, SetKey(base, unit)), ScoreOf())
  }

  predicate Fits(sets: Sets, base: string, now: int, limits: QuotaLimits) {
    forall unit: Unit :: Consumed(sets, base, unit, now) <= LimitOf(limits, unit)
  }

  function Serve(sets: Sets, base: string, now: int, score: nat, limits: QuotaLimits): (Sets, bool) {
    var added := AskFour(sets, base, now, score);
    var admitted := Fits(added, base, now, limits);
    (if admitted then added else DropFour(added, base, now), admitted)
  }

  function Next(s: State, call: Call): State {
    match call
    case Ask(base, now, score, limits) =>
      var (sets, admitted) := Serve(s.sets, base, now, score, limits);
      State(sets, s.history + [Served(base, now, score, admitted)])
    case Look(base, now) => s.(sets := LookFour(s.sets, base, now))
  }

  function Run(calls: seq<Call>): State {
    if calls == [] then Init else Next(Run(calls[..|calls| - 1]), calls[|calls| - 1])
  }

  // The clock never goes back from one call to the next.
  predicate Ordered(calls: seq<Call>) {
    |calls| <= 1 ||
    (calls[|calls| - 2].now <= calls[|calls| - 1].now && Ordered(calls[..|calls| - 1]))
  }

  // ----- What the sets hold -----

  predicate NoRepeats<T(==)>(s: seq<T>) {
    forall i, j :: 0 <= i < j < |s| ==> s[i] != s[j]
  }

  ghost predicate Asked(history: seq<Served>, base: string, m: Member) {
    exists q :: q in history && q.base == base && q.time == m.time && q.score == m.score
  }

  /** A set holds each request of its window once, nothing that was never asked, and outlives what it holds. */
  ghost predicate CoversSet(sets: Sets, history: seq<Served>, now: int, key: SetKey) {
    && (key in sets ==> NoRepeats(sets[key].members))
    && (forall m: Member :: key in sets && m in sets[key].members ==> Asked(history, key.base, m))
    && (forall m: Member :: now - Width(key.unit) < m.time && Asked(history, key.base, m) ==>
          key in sets && m in sets[key].members)
    && (forall m: Member :: key in sets && sets[key].expiresAt.Some? && Asked(history, key.base, m) ==>
          m.time + Ttl(key.unit) <= sets[key].expiresAt.value)
  }

  ghost predicate Covers(s: State, now: int) {
    && (forall q :: q in s.history ==> q.time <= now)
    && (forall key: SetKey :: CoversSet(s.sets, s.history, now, key))
  }

  // ----- What a call does to one set -----

  ghost predicate Same(a: Sets, b: Sets, key: SetKey) {
    (key in a <==> key in b) && (key in a ==> a[key] == b[key])
  }

  lemma {:induction false} WithoutKeeps(members: seq<Member>, gone: Member -> bool)
    ensures forall m :: m in Without(members, gone) <==> m in members && !gone(m)
    ensures NoRepeats(members) ==> NoRepeats(Without(members, gone))
  {
    if members != [] {
      WithoutKeeps(members[1..], gone);
    }
  }

  lemma {:induction false} WithoutPush(members: seq<Member>, last: Member, gone: Member -> bool)
    ensures Without(members + [last], gone) == Without(members, gone) + if gone(last) then [] else [last]
  {
    if members != [] {
      assert (members + [last])[1..] == members[1..] + [last];
      WithoutPush(members[1..], last, gone);
    }
  }

  // What a set holds once it is pruned at `now`.
  ghost predicate Pruned(sets: Sets, sets': Sets, now: int, key: SetKey) {
    && (key in sets' ==> key in sets && (NoRepeats(sets[key].members) ==> NoRepeats(sets'[key].members)))
    && (forall m :: key in sets' && m in sets'[key].members <==>
          m in Members(sets, now, key) && now - Width(key.unit) < m.time)
    && (key in sets' ==> sets'[key].expiresAt == sets[key].expiresAt)
  }

  // What a set holds once a request has pruned it and joined it.
  ghost predicate Joined(sets: Sets, sets': Sets, now: int, key: SetKey, own: Member) {
    && key in sets'
    && ((key in sets ==> NoRepeats(sets[key].members)) ==> NoRepeats(sets'[key].members))
    && (forall m :: m in sets'[key].members <==>
          m == own || (m in Members(sets, now, key) && now - Width(key.unit) < m.time))
    && sets'[key].expiresAt == Some(now + Ttl(key.unit))
  }

  lemma {:induction false} LookOneEffect(sets: Sets, base: string, unit: Unit, now: int, key: SetKey)
    ensures var sets' := LookOne(sets, base, unit, now);
            if key == SetKey(base, unit) then Pruned(sets, sets', now, key) else Same(sets', sets, key)
  {
    WithoutKeeps(Members(sets, now, key), UpTo(now - Width(unit)));
  }

  lemma {:induction false} AskOneEffect(sets: Sets, base: string, unit: Unit, now: int, score: nat, key: SetKey)
    ensures var sets' := AskOne(sets, base, unit, now, score);
            if key == SetKey(base, unit) then Joined(sets, sets', now, key, Member(now, score))
            else Same(sets', sets, key)
  {
    hide Remove;
    var own := SetKey(base, unit);
    LookOneEffect(sets, base, unit, now, key);
    var pruned := Remove(sets, now, own, UpTo(now - Width(unit)));
    if key == own {
      InsertJoins(sets, pruned, now, key, Member(now, score));
    }
  }

  lemma {:induction false} InsertJoins(sets: Sets, pruned: Sets, now: int, key: SetKey, own: Member)
    requires Pruned(sets, pruned, now, key)
    ensures Joined(sets, SetExpiry(Insert(pruned, now, key, own), now, key, Ttl(key.unit)), now, key, own)
  {
    var members := Members(pruned, now, key);
    assert forall m :: m in members <==> m in Members(sets, now, key) && now - Width(key.unit) < m.time;
    assert NoRepeats(members) && own !in members ==> NoRepeats(members + [own]);
  }

  lemma {:induction false} PrunedSame(a: Sets, b: Sets, a': Sets, b': Sets, now: int, key: SetKey)
    requires Pruned(a, a', now, key) && Same(a, b, key) && Same(a', b', key)
    ensures Pruned(b, b', now, key)
  {
  }

  lemma {:induction false} JoinedSame(a: Sets, b: Sets, a': Sets, b': Sets, now: int, key: SetKey, own: Member)
    requires Joined(a, a', now, key, own) && Same(a, b, key) && Same(a', b', key)
    ensures Joined(b, b', now, key, own)
  {
    assert Members(a, now, key) == Members(b, now, key);
  }

  lemma {:induction false} LookFourEffect(sets: Sets, base: string, now: int, key: SetKey)
    ensures var sets' := LookFour(sets, base, now);
            if key.base == base then Pruned(sets, sets', now, key) else Same(sets', sets, key)
  {
    var s1 := LookOne(sets, base, Second, now);
    var s2 := LookOne(s1, base, Minute, now);
    var s3 := LookOne(s2, base, Hour, now);
    var s4 := LookOne(s3, base, Day, now);
    LookOneEffect(sets, base, Second, now, key);
    LookOneEffect(s1, base, Minute, now, key);
    LookOneEffect(s2, base, Hour, now, key);
    LookOneEffect(s3, base, Day, now, key);
    if key.base == base {
      match key.unit
      case Second => PrunedSame(sets, sets, s1, s4, now, key);
      case Minute => PrunedSame(s1, sets, s2, s4, now, key);
      case Hour => PrunedSame(s2, sets, s3, s4, now, key);
      case Day => PrunedSame(s3, sets, s4, s4, now, key);
    }
  }

  lemma {:induction false} AskFourEffect(sets: Sets, base: string, now: int, score: nat, key: SetKey)
    ensures var sets' := AskFour(sets, base, now, score);
            if key.base == base then Joined(sets, sets', now, key, Member(now, score)) else Same(sets', sets, key)
  {
    var own := Member(now, score);
    var s1 := AskOne(sets, base, Second, now, score);
    var s2 := AskOne(s1, base, Minute, now, score);
    var s3 := AskOne(s2, base, Hour, now, score);
    var s4 := AskOne(s3, base, Day, now, score);
    AskOneEffect(sets, base, Second, now, score, key);
    AskOneEffect(s1, base, Minute, now, score, key);
    AskOneEffect(s2, base, Hour, now, score, key);
    AskOneEffect(s3, base, Day, now, score, key);
    if key.base == base {
      match key.unit
      case Second => JoinedSame(sets, sets, s1, s4, now, key, own);
      case Minute => JoinedSame(s1, sets, s2, s4, now, key, own);
      case Hour => JoinedSame(s2, sets, s3, s4, now, key, own);
      case Day => JoinedSame(s3, sets, s4, s4, now, key, own);
    }
  }

  lemma {:induction false} NothingDropped(sets: Sets, now: int, key: SetKey)
    requires Members(sets, now, key) != [] && key in sets
    ensures Remove(sets, now, key, OnlyBefore(now)) == sets
  {
    WithoutNothing(Members(sets, now, key), OnlyBefore(now));
  }

  lemma {:induction false} JoinedIsLive(sets: Sets, sets': Sets, now: int, key: SetKey, own: Member)
    requires Joined(sets, sets', now, key, own)
    ensures key in sets' && Members(sets', now, key) != []
  {
    assert own in sets'[key].members;
  }

  /** The range a refused request removes is empty: it stays counted. */
  lemma {:induction false} RefusedStays(sets: Sets, base: string, now: int, score: nat, limits: QuotaLimits)
    ensures Serve(sets, base, now, score, limits).0 == AskFour(sets, base, now, score)
  {
    hide AskFour, Remove;
    var added := AskFour(sets, base, now, score);
    forall unit: Unit ensures Remove(added, now, SetKey(base, unit), OnlyBefore(now)) == added {
      var key := SetKey(base, unit);
      AskFourEffect(sets, base, now, score, key);
      JoinedIsLive(sets, added, now, key, Member(now, score));
      NothingDropped(added, now, key);
    }
  }

  lemma {:induction false} WithoutNothing(members: seq<Member>, gone: Member -> bool)
    requires forall m :: m in members ==> !gone(m)
    ensures Without(members, gone) == members
  {
    if members != [] {
      WithoutNothing(members[1..], gone);
    }
  }

  lemma {:induction false} LookCovers(sets: Sets, sets': Sets, history: seq<Served>, before: int, now: int, key: SetKey)
    requires CoversSet(sets, history, before, key) && before <= now
    requires Pruned(sets, sets', now, key) || Same(sets', sets, key)
    ensures CoversSet(sets', history, now, key)
  {
  }

  lemma {:induction false} AskCovers(sets: Sets, sets': Sets, history: seq<Served>, last: Served, before: int, now: int, key: SetKey)
    requires CoversSet(sets, history, before, key) && before <= now == last.time
    requires forall q :: q in history ==> q.time <= now
    requires if key.base == last.base then Joined(sets, sets', now, key, Member(now, last.score))
             else Same(sets', sets, key)
    ensures CoversSet(sets', history + [last], now, key)
  {
    forall m: Member
      ensures Asked(history + [last], key.base, m)
              <==> Asked(history, key.base, m) || (key.base == last.base && m == Member(last.time, last.score))
    {
      AskedPush(history, last, key.base, m);
    }
  }

  lemma {:induction false} StepCovers(s: State, call: Call, now: int)
    requires Covers(s, now) && now <= call.now
    ensures Covers(Next(s, call), call.now)
  {
    hide AskFour, LookFour, Joined, Pruned, Serve;
    var s' := Next(s, call);
    forall key: SetKey ensures CoversSet(s'.sets, s'.history, call.now, key) {
      assert CoversSet(s.sets, s.history, now, key);
      match call
      case Look(base, later) =>
        LookFourEffect(s.sets, base, later, key);
        LookCovers(s.sets, s'.sets, s.history, now, later, key);
      case Ask(base, later, score, limits) =>
        RefusedStays(s.sets, base, later, score, limits);
        AskFourEffect(s.sets, base, later, score, key);
        AskCovers(s.sets, s'.sets, s.history, s'.history[|s.history|], now, later, key);
    }
  }

  lemma {:induction false} AskedPush(history: seq<Served>, last: Served, base: string, m: Member)
    ensures Asked(history + [last], base, m)
            <==> Asked(history, base, m) || (base == last.base && m == Member(last.time, last.score))
  {
    assert forall q :: q in history + [last] <==> q in history || q == last;
    if base == last.base && m == Member(last.time, last.score) {
      assert last in history + [last];
    }
  }

  lemma {:induction false} CoversLater(s: State, now: int, later: int)
    requires Covers(s, now) && now <= later
    ensures Covers(s, later)
  {
    forall key: SetKey ensures CoversSet(s.sets, s.history, later, key) {
      assert CoversSet(s.sets, s.history, now, key);
    }
  }

  /** Whatever mix of requests and quota calls has run, the sets still cover the last window of each width. */
  lemma {:induction false} RunCovers(calls: seq<Call>, now: int)
    requires Ordered(calls) && (calls != [] ==> calls[|calls| - 1].now <= now)
    ensures Covers(Run(calls), now)
  {
    hide Next;
    if calls == [] {
      assert forall key: SetKey :: CoversSet(Init.sets, Init.history, now, key);
    } else {
      var before, last := calls[..|calls| - 1], calls[|calls| - 1];
      RunCovers(before, last.now);
      StepCovers(Run(before), last, last.now);
      CoversLater(Next(Run(before), last), last.now, now);
    }
  }

  // One more call: what it adds to the history, and the sets a request is decided on.
  lemma {:induction false} HistoryStep(s: State, call: Call)
    ensures var s' := Next(s, call);
            if call.Look? then s'.history == s.history
            else && s'.sets == AskFour(s.sets, call.base, call.now, call.score)
                 && s'.history == s.history + [Served(call.base, call.now, call.score,
                                                      Fits(s'.sets, call.base, call.now, call.limits))]
  {
    hide AskFour, DropFour, Fits;
    if call.Ask? {
      RefusedStays(s.sets, call.base, call.now, call.score, call.limits);
    }
  }

  // Some call asks for this score at this time.
  ghost predicate Comes(calls: seq<Call>, base: string, m: Member) {
    exists call :: call in calls && call.Ask? && call.base == base && call.now == m.time && call.score == m.score
  }

  lemma {:induction false} ComesPush(calls: seq<Call>, base: string, m: Member)
    requires calls != []
    ensures var before, last := calls[..|calls| - 1], calls[|calls| - 1];
            Comes(calls, base, m) <==>
              Comes(before, base, m) || (last.Ask? && last.base == base && m == Member(last.now, last.score))
  {
    var before, last := calls[..|calls| - 1], calls[|calls| - 1];
    assert calls == before + [last];
    assert forall call :: call in calls <==> call in before || call == last;
  }

  lemma {:induction false} RunHistory(calls: seq<Call>, base: string, m: Member)
    ensures Asked(Run(calls).history, base, m) <==> Comes(calls, base, m)
  {
    hide Next;
    if calls != [] {
      var before, last := calls[..|calls| - 1], calls[|calls| - 1];
      RunHistory(before, base, m);
      ComesPush(calls, base, m);
      HistoryAsked(Run(before), last, base, m);
    }
  }

  lemma {:induction false} HistoryAsked(s: State, last: Call, base: string, m: Member)
    ensures Asked(Next(s, last).history, base, m)
            <==> Asked(s.history, base, m) || (last.Ask? && last.base == base && m == Member(last.now, last.score))
  {
    hide Next;
    HistoryStep(s, last);
    if last.Ask? {
      AskedPush(s.history, Next(s, last).history[|s.history|], base, m);
    }
  }

  // ----- What a request counts -----

  // The requests on `base` after `from`, as members, repetitions included.
  function Recent(history: seq<Served>, base: string, from: int): seq<Member> {
    if history == [] then []
    else
      var last := history[|history| - 1];
      Recent(history[..|history| - 1], base, from)
      + if last.base == base && from < last.time then [Member(last.time, last.score)] else []
  }

  lemma {:induction false} RecentIsAsked(history: seq<Served>, base: string, from: int, m: Member)
    ensures m in Recent(history, base, from) <==> Asked(history, base, m) && from < m.time
  {
    if history != [] {
      var before, last := history[..|history| - 1], history[|history| - 1];
      assert history == before + [last];
      AskedPush(before, last, base, m);
      RecentIsAsked(before, base, from, m);
    }
  }

  // No positive score repeats at the same instant.
  predicate Telling(members: seq<Member>) {
    forall i, j :: 0 <= i < j < |members| && members[i] == members[j] ==> members[i].score == 0
  }

  lemma {:induction false} TakeOut(once: seq<Member>, m: Member) returns (fewer: seq<Member>)
    requires NoRepeats(once) && m in once
    ensures NoRepeats(fewer) && m !in fewer && forall x :: x in once <==> x == m || x in fewer
    ensures SumBy(once, ScoreOf()) == SumBy(fewer, ScoreOf()) + m.score
  {
    var i :| 0 <= i < |once| && once[i] == m;
    fewer := once[..i] + once[i + 1..];
    assert once == once[..i] + [m] + once[i + 1..];
    SumAppend(once[..i], [m], ScoreOf());
    SumAppend(once[..i] + [m], once[i + 1..], ScoreOf());
    SumAppend(once[..i], once[i + 1..], ScoreOf());
    assert SumBy([m], ScoreOf()) == m.score;
  }

  lemma {:induction false} DistinctSum(once: seq<Member>, all: seq<Member>)
    requires NoRepeats(once) && forall m :: m in once <==> m in all
    ensures SumBy(once, ScoreOf()) <= SumBy(all, ScoreOf())
    ensures SumBy(once, ScoreOf()) == SumBy(all, ScoreOf()) <==> Telling(all)
    decreases |all|
  {
    if all == [] {
      assert |once| > 0 ==> once[0] in once;
    } else {
      hide NoRepeats, Telling;
      var m, rest := all[0], all[1..];
      assert all == [m] + rest;
      TellingTail(all);
      if m in rest {
        DistinctSum(once, rest);
      } else {
        var fewer := TakeOut(once, m);
        DistinctSum(fewer, rest);
      }
    }
  }

  lemma {:induction false} TellingTail(all: seq<Member>)
    requires all != []
    ensures Telling(all) <==> Telling(all[1..]) && (all[0].score == 0 || all[0] !in all[1..])
  {
    var rest := all[1..];
    if Telling(all) {
      assert forall i :: 0 <= i < |rest| ==> rest[i] == all[i + 1];
      if all[0] in rest {
        var j :| 0 <= j < |rest| && rest[j] == all[0];
        assert all[0] == all[j + 1];
      }
    } else {
      var i, j :| 0 <= i < j < |all| && all[i] == all[j] && all[i].score != 0;
      assert all[j] == rest[j - 1];
      assert 0 < i ==> all[i] == rest[i - 1];
    }
  }

  // What a request counts, once it has joined the sets, against what its window was asked for.
  ghost predicate Counts(s: State, base: string, unit: Unit, now: int) {
    var asked := Recent(s.history, base, now - Width(unit));
    var counted := Consumed(s.sets, base, unit, now);
    && counted <= SumBy(asked, ScoreOf())
    && (counted == SumBy(asked, ScoreOf()) <==> Telling(asked))
  }

  /**
   What a request counts is what its window was asked for, itself included, refused requests too: never more, and
   exactly that unless two requests with the same positive score share an instant.
   */
  lemma {:induction false} CountedIff(calls: seq<Call>, last: Call, unit: Unit)
    requires Ordered(calls + [last]) && last.Ask?
    ensures Counts(Next(Run(calls), last), last.base, unit, last.now)
  {
    hide Run, Next, Covers, Counts;
    assert (calls + [last])[..|calls|] == calls;
    RunCovers(calls, last.now);
    CountedOnce(Run(calls), last, unit);
  }

  lemma {:induction false} CountedOnce(s: State, last: Call, unit: Unit)
    requires Covers(s, last.now) && last.Ask?
    ensures Counts(Next(s, last), last.base, unit, last.now)
  {
    hide Next, Recent, Telling, NoRepeats, AskFour, Fits, SumBy;
    var s', key := Next(s, last), SetKey(last.base, unit);
    StepCovers(s, last, last.now);
    assert CoversSet(s'.sets, s'.history, last.now, key);
    HistoryStep(s, last);
    AskFourEffect(s.sets, last.base, last.now, last.score, key);
    MembersAreRecent(s'.sets, s'.history, last.now, key);
    DistinctSum(Members(s'.sets, last.now, key), Recent(s'.history, last.base, last.now - Width(unit)));
  }

  lemma {:induction false} MembersAreRecent(sets: Sets, history: seq<Served>, now: int, key: SetKey)
    requires CoversSet(sets, history, now, key)
    requires key in sets && sets[key].expiresAt == Some(now + Ttl(key.unit))
    requires forall m :: m in sets[key].members ==> now - Width(key.unit) < m.time
    ensures var members := Members(sets, now, key);
            NoRepeats(members) && forall m :: m in members <==> m in Recent(history, key.base, now - Width(key.unit))
  {
    forall m ensures m in sets[key].members <==> m in Recent(history, key.base, now - Width(key.unit)) {
      RecentIsAsked(history, key.base, now - Width(key.unit), m);
    }
  }

  // ----- The bound -----

  function AdmittedIn(base: string, from: int, to: int): Served -> int {
    (q: Served) => if q.base == base && q.admitted && from < q.time <= to then q.score else 0
  }

  // No two requests on `base` share an instant and a positive score.
  ghost predicate TellingCalls(calls: seq<Call>, base: string) {
    calls == [] ||
    var before, last := calls[..|calls| - 1], calls[|calls| - 1];
    && TellingCalls(before, base)
    && (last.Ask? && last.base == base && last.score > 0 ==> !Comes(before, base, Member(last.now, last.score)))
  }

  ghost predicate LimitedTo(calls: seq<Call>, base: string, unit: Unit, limit: int) {
    calls == [] ||
    var before, last := calls[..|calls| - 1], calls[|calls| - 1];
    && LimitedTo(before, base, unit, limit)
    && (last.Ask? && last.base == base ==> LimitOf(last.limits, unit) <= limit)
  }

  lemma {:induction false} TellingHistory(calls: seq<Call>, base: string, from: int)
    requires TellingCalls(calls, base)
    ensures Telling(Recent(Run(calls).history, base, from))
  {
    hide Next;
    if calls != [] {
      var before, last := calls[..|calls| - 1], calls[|calls| - 1];
      TellingHistory(before, base, from);
      if last.Ask? {
        RunHistory(before, base, Member(last.now, last.score));
      }
      TellingStep(Run(before), last, base, from);
    }
  }

  lemma {:induction false} TellingPush(members: seq<Member>, m: Member)
    requires Telling(members) && (m.score == 0 || m !in members)
    ensures Telling(members + [m])
  {
  }

  lemma {:induction false} RecentPush(history: seq<Served>, last: Served, base: string, from: int)
    ensures Recent(history + [last], base, from)
            == if last.base == base && from < last.time
               then Recent(history, base, from) + [Member(last.time, last.score)] else Recent(history, base, from)
  {
    assert (history + [last])[..|history|] == history;
    assert Recent(history, base, from) + [] == Recent(history, base, from);
  }

  lemma {:induction false} TellingStep(s: State, last: Call, base: string, from: int)
    requires Telling(Recent(s.history, base, from))
    requires last.Ask? && last.base == base && last.score > 0 ==>
               !Asked(s.history, base, Member(last.now, last.score))
    ensures Telling(Recent(Next(s, last).history, base, from))
  {
    hide Next, Telling, Asked, Recent;
    HistoryStep(s, last);
    if last.Ask? {
      var m := Member(last.now, last.score);
      RecentPush(s.history, Next(s, last).history[|s.history|], base, from);
      RecentIsAsked(s.history, base, from, m);
      if last.base == base && from < last.now {
        TellingPush(Recent(s.history, base, from), m);
      }
    }
  }

  lemma {:induction false} AdmittedIsRecent(history: seq<Served>, base: string, from: int, to: int, back: int)
    requires back <= from
    ensures SumBy(history, AdmittedIn(base, from, to)) <= SumBy(Recent(history, base, back), ScoreOf())
  {
    if history != [] {
      var before, last := history[..|history| - 1], history[|history| - 1];
      assert history == before + [last];
      AdmittedIsRecent(before, base, from, to, back);
      SumPush(before, last, AdmittedIn(base, from, to));
      SumAppend(Recent(before, base, back), [Member(last.time, last.score)], ScoreOf());
      SumAppend(Recent(before, base, back), [], ScoreOf());
      assert SumBy([Member(last.time, last.score)], ScoreOf()) == last.score;
    }
  }

  /** In every interval (from, from + width], whatever its place, at most the limit is admitted. */
  lemma {:induction false} IntervalBound(calls: seq<Call>, base: string, unit: Unit, from: int, limit: nat)
    requires Ordered(calls) && TellingCalls(calls, base)
    requires LimitedTo(calls, base, unit, limit)
    ensures SumBy(Run(calls).history, AdmittedIn(base, from, from + Width(unit))) <= limit
    decreases |calls|
  {
    hide Next;
    if calls != [] {
      var before, last := calls[..|calls| - 1], calls[|calls| - 1];
      IntervalBound(before, base, unit, from, limit);
      LastReady(calls, base, unit);
      StepBound(Run(before), Run(calls), last, base, unit, from, limit);
    }
  }

  lemma {:induction false} LastReady(calls: seq<Call>, base: string, unit: Unit)
    requires calls != [] && Ordered(calls) && TellingCalls(calls, base)
    ensures var before, last := calls[..|calls| - 1], calls[|calls| - 1];
            && Run(calls) == Next(Run(before), last)
            && Covers(Run(before), last.now)
            && Telling(Recent(Run(calls).history, base, last.now - Width(unit)))
  {
    hide Next, Covers, Telling, Recent;
    RunCovers(calls[..|calls| - 1], calls[|calls| - 1].now);
    TellingHistory(calls, base, calls[|calls| - 1].now - Width(unit));
  }

  lemma {:induction false} StepBound(s: State, s': State, last: Call, base: string, unit: Unit, from: int, limit: nat)
    requires s' == Next(s, last) && Covers(s, last.now)
    requires last.Ask? && last.base == base ==> LimitOf(last.limits, unit) <= limit
    requires SumBy(s.history, AdmittedIn(base, from, from + Width(unit))) <= limit
    requires Telling(Recent(s'.history, base, last.now - Width(unit)))
    ensures SumBy(s'.history, AdmittedIn(base, from, from + Width(unit))) <= limit
  {
    hide Next, Covers, Recent, Telling, Fits, AskFour, Consumed, SumBy;
    HistoryStep(s, last);
    if last.Ask? {
      if last.base == base {
        CountedOnce(s, last, unit);
        LastBound(s.history, s', last, base, unit, from, limit);
      } else {
        SumPush(s.history, s'.history[|s.history|], AdmittedIn(base, from, from + Width(unit)));
      }
    }
  }

  // The request that closes the interval has counted all that was admitted in it.
  lemma {:induction false} LastBound(history: seq<Served>, s: State, last: Call, base: string, unit: Unit, from: int, limit: nat)
    requires last.Ask? && last.base == base && LimitOf(last.limits, unit) <= limit
    requires s.history == history + [Served(last.base, last.now, last.score,
                                            Fits(s.sets, last.base, last.now, last.limits))]
    requires SumBy(history, AdmittedIn(base, from, from + Width(unit))) <= limit
    requires Consumed(s.sets, last.base, unit, last.now)
             == SumBy(Recent(s.history, last.base, last.now - Width(unit)), ScoreOf())
    ensures SumBy(s.history, AdmittedIn(base, from, from + Width(unit))) <= limit
  {
    var weight := AdmittedIn(base, from, from + Width(unit));
    var served := s.history[|history|];
    SumPush(history, served, weight);
    if weight(served) > 0 {
      AdmittedIsRecent(s.history, base, from, from + Width(unit), last.now - Width(unit));
    }
  }

  // Requests on `base` carry no more than these limits.
  ghost predicate Allowed(calls: seq<Call>, base: string, most: QuotaLimits) {
    forall call :: call in calls && call.Ask? && call.base == base ==>
      && call.limits.perSecond <= most.perSecond && call.limits.perMinute <= most.perMinute
      && call.limits.perHour <= most.perHour && call.limits.perDay <= most.perDay
  }

  lemma {:induction false} AllowedLimited(calls: seq<Call>, base: string, most: QuotaLimits, unit: Unit)
    requires Allowed(calls, base, most)
    ensures LimitedTo(calls, base, unit, LimitOf(most, unit))
  {
    if calls != [] {
      var before, last := calls[..|calls| - 1], calls[|calls| - 1];
      assert last in calls && forall call :: call in before ==> call in calls;
      AllowedLimited(before, base, most, unit);
    }
  }

  /** In numbers: any 1 s, 60 s, 3600 s and 86400 s admit at most what is allowed per second, minute, hour and day. */
  lemma {:induction false} AnySpanBounds(calls: seq<Call>, base: string, from: int, most: QuotaLimits)
    requires Ordered(calls) && TellingCalls(calls, base) && Allowed(calls, base, most)
    requires 0 <= most.perSecond && 0 <= most.perMinute && 0 <= most.perHour && 0 <= most.perDay
    ensures var history := Run(calls).history;
            && SumBy(history, AdmittedIn(base, from, from + 1000)) <= most.perSecond
            && SumBy(history, AdmittedIn(base, from, from + 60 * 1000)) <= most.perMinute
            && SumBy(history, AdmittedIn(base, from, from + 60 * 60 * 1000)) <= most.perHour
            && SumBy(history, AdmittedIn(base, from, from + 24 * 60 * 60 * 1000)) <= most.perDay
  {
    hide Run, Ordered, TellingCalls, Allowed, LimitedTo, SumBy;
    forall unit: Unit
      ensures SumBy(Run(calls).history, AdmittedIn(base, from, from + Width(unit))) <= LimitOf(most, unit)
    {
      AllowedLimited(calls, base, most, unit);
      IntervalBound(calls, base, unit, from, LimitOf(most, unit));
    }
    assert Width(Second) == 1000 && Width(Minute) == 60 * 1000;
    assert Width(Hour) == 60 * 60 * 1000 && Width(Day) == 24 * 60 * 60 * 1000;
  }

  // ----- When the bound holds -----

  function Exactly(base: string, now: int, score: nat): Call {
    Ask(base, now, score, QuotaLimits(score, score, score, score))
  }

  /** Two requests of one score in one instant count once, and both are admitted under a limit of one. */
  lemma {:induction false} RepeatOvershoots(base: string, now: int, score: nat)
    ensures var twice := [Exactly(base, now, score), Exactly(base, now, score)];
            SumBy(Run(twice).history, AdmittedIn(base, now - 1000, now)) == 2 * score
  {
    var call := Exactly(base, now, score);
    assert [call, call] == [] + [call] + [call];
    RepeatServed([call, call], base, now, score);
  }

  lemma {:induction false} RepeatServed(calls: seq<Call>, base: string, now: int, score: nat)
    requires calls == [] + [Exactly(base, now, score)] + [Exactly(base, now, score)]
    ensures SumBy(Run(calls).history, AdmittedIn(base, now - 1000, now)) == 2 * score
  {
    hide Next, Exactly;
    var call := Exactly(base, now, score);
    RunPush([], call);
    RunPush([] + [call], call);
    var s1 := Next(Init, call);
    HoldsOne(Init, base, now, score);
    HoldsOne(s1, base, now, score);
    TwoServed(Next(s1, call).history, base, now, score);
  }

  lemma {:induction false} TwoServed(history: seq<Served>, base: string, now: int, score: nat)
    requires history == [] + [Served(base, now, score, true)] + [Served(base, now, score, true)]
    ensures SumBy(history, AdmittedIn(base, now - 1000, now)) == 2 * score
  {
    var served, weight := Served(base, now, score, true), AdmittedIn(base, now - 1000, now);
    SumPush([], served, weight);
    SumPush([] + [served], served, weight);
  }

  lemma {:induction false} RunPush(calls: seq<Call>, last: Call)
    ensures Run(calls + [last]) == Next(Run(calls), last)
  {
    hide Next;
    assert (calls + [last])[..|calls|] == calls;
  }

  ghost predicate AtMostOne(sets: Sets, base: string, now: int, score: nat) {
    forall unit: Unit :: var key := SetKey(base, unit);
      && (Members(sets, now, key) == [] || Members(sets, now, key) == [Member(now, score)])
      && (key in sets ==> NoRepeats(sets[key].members))
  }

  lemma {:induction false} HoldsOne(s: State, base: string, now: int, score: nat)
    requires AtMostOne(s.sets, base, now, score)
    ensures var s' := Next(s, Exactly(base, now, score));
            s'.history == s.history + [Served(base, now, score, true)] && AtMostOne(s'.sets, base, now, score)
  {
    hide Next, Joined;
    var call := Exactly(base, now, score);
    HistoryStep(s, call);
    forall unit: Unit ensures Members(Next(s, call).sets, now, SetKey(base, unit)) == [Member(now, score)] {
      AskFourEffect(s.sets, base, now, score, SetKey(base, unit));
      JoinedOne(s.sets, Next(s, call).sets, now, SetKey(base, unit), Member(now, score));
    }
    OneFits(Next(s, call).sets, base, now, score);
  }

  lemma {:induction false} JoinedOne(sets: Sets, sets': Sets, now: int, key: SetKey, own: Member)
    requires Joined(sets, sets', now, key, own)
    requires var members := Members(sets, now, key); members == [] || members == [own]
    requires key in sets ==> NoRepeats(sets[key].members)
    ensures Members(sets', now, key) == [own]
  {
    SingleMember(sets'[key].members, own);
  }

  lemma {:induction false} SingleMember(members: seq<Member>, m: Member)
    requires NoRepeats(members) && m in members
    ensures members == [m] || exists other :: other in members && other != m
  {
    if members != [m] {
      assert (if members[0] == m then members[1] else members[0]) in members;
    }
  }

  lemma {:induction false} OneFits(sets: Sets, base: string, now: int, score: nat)
    requires forall unit: Unit :: Members(sets, now, SetKey(base, unit)) == [Member(now, score)]
    ensures Fits(sets, base, now, Exactly(base, now, score).limits)
  {
    assert SumBy([Member(now, score)], ScoreOf()) == score;
  }

  ghost predicate Within(calls: seq<Call>, base: string, unit: Unit, from: int, limit: nat) {
    LimitedTo(calls, base, unit, limit) ==>
      SumBy(Run(calls).history, AdmittedIn(base, from, from + Width(unit))) <= limit
  }

  // The bound, for every width, every interval and every limit that the requests carry.
  ghost predicate KeepsBound(calls: seq<Call>, base: string) {
    forall unit: Unit, from: int, limit: nat :: Within(calls, base, unit, from, limit)
  }

  // The same call, but for the limits it carries.
  predicate Alike(a: Call, b: Call) {
    if a.Ask? then b.Ask? && a.base == b.base && a.now == b.now && a.score == b.score else a == b
  }

  // Some of the calls, in order, whatever limits they carry.
  ghost predicate Thinned(some: seq<Call>, calls: seq<Call>)
    decreases |calls|
  {
    some == [] ||
    (calls != [] &&
      var before := calls[..|calls| - 1];
      || Thinned(some, before)
      || (Alike(some[|some| - 1], calls[|calls| - 1]) && Thinned(some[..|some| - 1], before)))
  }

  // That the bound is kept whichever of the calls are made, and whatever the limits.
  ghost predicate Safe(calls: seq<Call>, base: string) {
    forall some: seq<Call> :: Thinned(some, calls) ==> KeepsBound(some, base)
  }

  lemma {:induction false} ThinnedComes(some: seq<Call>, calls: seq<Call>, base: string, m: Member)
    requires Thinned(some, calls) && Comes(some, base, m)
    ensures Comes(calls, base, m)
    decreases |calls|
  {
    ComesPush(some, base, m);
    ComesPush(calls, base, m);
    var before := calls[..|calls| - 1];
    if Thinned(some, before) {
      ThinnedComes(some, before, base, m);
    } else if Comes(some[..|some| - 1], base, m) {
      ThinnedComes(some[..|some| - 1], before, base, m);
    }
  }

  lemma {:induction false} ThinnedOrdered(some: seq<Call>, calls: seq<Call>)
    requires Thinned(some, calls) && Ordered(calls)
    ensures Ordered(some) && (some != [] ==> calls != [] && some[|some| - 1].now <= calls[|calls| - 1].now)
    decreases |calls|
  {
    if some != [] {
      var before := calls[..|calls| - 1];
      if Thinned(some, before) {
        ThinnedOrdered(some, before);
      } else {
        ThinnedOrdered(some[..|some| - 1], before);
      }
    }
  }

  lemma {:induction false} ThinnedTelling(some: seq<Call>, calls: seq<Call>, base: string)
    requires Thinned(some, calls) && TellingCalls(calls, base)
    ensures TellingCalls(some, base)
    decreases |calls|
  {
    hide Comes;
    if some != [] {
      var before := calls[..|calls| - 1];
      if Thinned(some, before) {
        ThinnedTelling(some, before, base);
      } else {
        var fewer, last := some[..|some| - 1], some[|some| - 1];
        ThinnedTelling(fewer, before, base);
        if last.Ask? && Comes(fewer, base, Member(last.now, last.score)) {
          ThinnedComes(fewer, before, base, Member(last.now, last.score));
        }
      }
    }
  }

  lemma {:induction false} ComesThinned(calls: seq<Call>, base: string, m: Member)
    requires Comes(calls, base, m)
    ensures Thinned([Exactly(base, m.time, m.score)], calls)
    decreases |calls|
  {
    ComesPush(calls, base, m);
    if Comes(calls[..|calls| - 1], base, m) {
      ComesThinned(calls[..|calls| - 1], base, m);
    } else {
      assert [Exactly(base, m.time, m.score)][..0] == [];
    }
  }

  lemma {:induction false} RepeatThinned(calls: seq<Call>, base: string) returns (now: int, score: nat)
    requires !TellingCalls(calls, base)
    ensures 0 < score && Thinned([Exactly(base, now, score), Exactly(base, now, score)], calls)
    decreases |calls|
  {
    hide Comes;
    var before, last := calls[..|calls| - 1], calls[|calls| - 1];
    if !TellingCalls(before, base) {
      now, score := RepeatThinned(before, base);
    } else {
      now, score := last.now, last.score;
      var call := Exactly(base, now, score);
      ComesThinned(before, base, Member(now, score));
      assert [call, call][..1] == [call];
    }
  }

  lemma {:induction false} RepeatBreaks(base: string, now: int, score: nat)
    requires 0 < score
    ensures !KeepsBound([Exactly(base, now, score), Exactly(base, now, score)], base)
  {
    hide Run;
    var call := Exactly(base, now, score);
    RepeatOvershoots(base, now, score);
    LimitedTwice([call, call], base, now, score);
    assert !Within([call, call], base, Second, now - 1000, score);
  }

  lemma {:induction false} LimitedTwice(calls: seq<Call>, base: string, now: int, score: nat)
    requires calls == [] + [Exactly(base, now, score)] + [Exactly(base, now, score)]
    ensures LimitedTo(calls, base, Second, score)
    ensures forall gap: int :: gap <= 0 ==> Apart(calls, gap)
    ensures Ordered(calls)
  {
    var call := Exactly(base, now, score);
    assert calls[..1] == [call] && [call][..0] == [];
    assert LimitedTo([call], base, Second, score);
    forall gap: int | gap <= 0 ensures Apart(calls, gap) {
      assert Apart([], gap) && Apart([call], gap);
    }
  }

  lemma {:induction false} TellingKeepsBound(calls: seq<Call>, base: string)
    requires Ordered(calls) && TellingCalls(calls, base)
    ensures KeepsBound(calls, base)
  {
    hide Run, TellingCalls;
    forall unit: Unit, from: int, limit: nat ensures Within(calls, base, unit, from, limit) {
      if LimitedTo(calls, base, unit, limit) {
        IntervalBound(calls, base, unit, from, limit);
      }
    }
  }

  /**
   Whichever of the calls are made, and whatever the limits, no interval of any width admits more than the limit:
   exactly when no two of them ask for the same positive score in the same instant.
   */
  lemma {:induction false} SafeIff(calls: seq<Call>, base: string)
    requires Ordered(calls)
    ensures Safe(calls, base) <==> TellingCalls(calls, base)
  {
    hide KeepsBound, Thinned, TellingCalls, Exactly;
    if TellingCalls(calls, base) {
      forall some: seq<Call> | Thinned(some, calls) ensures KeepsBound(some, base) {
        ThinnedOrdered(some, calls);
        ThinnedTelling(some, calls, base);
        TellingKeepsBound(some, base);
      }
    } else {
      var now, score := RepeatThinned(calls, base);
      RepeatBreaks(base, now, score);
    }
  }

  // That any two requests on one base are at least `gap` apart.
  ghost predicate Apart(calls: seq<Call>, gap: int) {
    calls == [] ||
    var before, last := calls[..|calls| - 1], calls[|calls| - 1];
    && Apart(before, gap)
    && (last.Ask? ==> forall call :: call in before && call.Ask? && call.base == last.base ==> call.now + gap <= last.now)
  }

  ghost predicate SafeApart(gap: int) {
    forall calls: seq<Call> :: Apart(calls, gap) && Ordered(calls) ==> forall base: string :: KeepsBound(calls, base)
  }

  lemma {:induction false} ApartTelling(calls: seq<Call>, base: string, gap: int)
    requires Apart(calls, gap) && 1 <= gap
    ensures TellingCalls(calls, base)
    decreases |calls|
  {
    if calls != [] {
      ApartTelling(calls[..|calls| - 1], base, gap);
    }
  }

  /** Requests kept that far apart never pass the limit: exactly when that is a millisecond at least. */
  lemma {:induction false} SafeApartIff(gap: int)
    ensures SafeApart(gap) <==> 1 <= gap
  {
    hide KeepsBound, TellingCalls, Apart, Ordered, Exactly;
    if 1 <= gap {
      forall calls: seq<Call>, base: string | Apart(calls, gap) && Ordered(calls) ensures KeepsBound(calls, base) {
        ApartTelling(calls, base, gap);
        TellingKeepsBound(calls, base);
      }
    } else {
      var call := Exactly("k", 5000, 1);
      RepeatBreaks("k", 5000, 1);
      LimitedTwice([call, call], "k", 5000, 1);
    }
  }

  // ----- The algorithm itself -----

  function BaseKey(userId: string, token: string): string {
    "rate-limiting:sliding-window:" + userId + ":" + token
  }

  /** Two pairs share their sets exactly when their ids make one text. */
  lemma {:induction false} SameBaseIff(u: string, t: string, userId: string, token: string)
    ensures BaseKey(u, t) == BaseKey(userId, token) <==> u + ":" + t == userId + ":" + token
  {
    Pairs.SameRest("rate-limiting:sliding-window:", u + ":" + t, userId + ":" + token);
    assert BaseKey(u, t) == "rate-limiting:sliding-window:" + (u + ":" + t);
    assert BaseKey(userId, token) == "rate-limiting:sliding-window:" + (userId + ":" + token);
  }

  /** A pair has its sets to itself exactly when neither of its ids holds a colon. */
  lemma {:induction false} SharedSetsIff(userId: string, token: string)
    ensures (exists u: string, t: string :: (u, t) != (userId, token) && BaseKey(u, t) == BaseKey(userId, token))
            <==> ':' in userId || ':' in token
  {
    hide BaseKey;
    Pairs.SharedIff(userId, token);
    forall u: string, t: string ensures BaseKey(u, t) == BaseKey(userId, token) <==> u + ":" + t == userId + ":" + token {
      SameBaseIff(u, t, userId, token);
    }
  }

  // The sets of all other pairs whose ids hold no colon are as they were.
  ghost predicate OthersKept(before: Sets, after: Sets, userId: string, token: string) {
    forall u: string, t: string, unit: Unit :: ':' !in u && ':' !in t && (u, t) != (userId, token) ==>
      Same(after, before, SetKey(BaseKey(u, t), unit))
  }

  lemma {:induction false} OthersApart(before: Sets, after: Sets, userId: string, token: string)
    requires forall key: SetKey :: key.base != BaseKey(userId, token) ==> Same(after, before, key)
    ensures OthersKept(before, after, userId, token)
  {
    hide BaseKey, Same;
    forall u: string, t: string | ':' !in u && ':' !in t && (u, t) != (userId, token)
      ensures BaseKey(u, t) != BaseKey(userId, token)
    {
      SameBaseIff(u, t, userId, token);
      if u + ":" + t == userId + ":" + token {
        Pairs.SamePair(userId, token, u, t);
      }
    }
  }

  /** What a quota call takes off for a request is the instant it was made, not its score. */
  lemma {:induction false} TimesReported(now: int, score: nat)
    ensures SumBy([Member(now, score)], TimeOf()) == now && SumBy([Member(now, score)], ScoreOf()) == score
  {
    assert SumBy([Member(now, score)][1..], TimeOf()) == 0 && SumBy([Member(now, score)][1..], ScoreOf()) == 0;
  }

  // The four sets expire 2, 61, 3601 and 86401 seconds from now.
  ghost predicate ExpireSoon(sets: Sets, base: string, now: int) {
    && Expires(sets, SetKey(base, Second), now + 2000) && Expires(sets, SetKey(base, Minute), now + 61000)
    && Expires(sets, SetKey(base, Hour), now + 3601000) && Expires(sets, SetKey(base, Day), now + 86401000)
  }

  ghost predicate Expires(sets: Sets, key: SetKey, at: int) {
    key in sets && sets[key].expiresAt == Some(at)
  }

  // A request leaves the sets of others alone and its own with a fresh expiry, admitted or not.
  lemma {:induction false} ServeTouches(sets: Sets, userId: string, token: string, now: int, score: nat, limits: QuotaLimits)
    ensures var (sets', admitted) := Serve(sets, BaseKey(userId, token), now, score, limits);
            OthersKept(sets, sets', userId, token) && ExpireSoon(sets', BaseKey(userId, token), now)
  {
    hide AskFour, Serve, BaseKey, Same;
    var base := BaseKey(userId, token);
    RefusedStays(sets, base, now, score, limits);
    var sets' := AskFour(sets, base, now, score);
    forall key: SetKey ensures if key.base == base then Joined(sets, sets', now, key, Member(now, score)) else Same(sets', sets, key) {
      AskFourEffect(sets, base, now, score, key);
    }
    OthersApart(sets, sets', userId, token);
    forall unit: Unit ensures Expires(sets', SetKey(base, unit), now + Ttl(unit)) {
      assert Joined(sets, sets', now, SetKey(base, unit), Member(now, score));
    }
    assert Expires(sets', SetKey(base, Second), now + 2000) && Expires(sets', SetKey(base, Minute), now + 61000);
    assert Expires(sets', SetKey(base, Hour), now + 3601000) && Expires(sets', SetKey(base, Day), now + 86401000);
  }

  lemma {:induction false} LookTouches(sets: Sets, userId: string, token: string, now: int)
    ensures OthersKept(sets, LookFour(sets, BaseKey(userId, token), now), userId, token)
  {
    hide LookFour, BaseKey, Same, Pruned;
    var base := BaseKey(userId, token);
    forall key: SetKey | key.base != base ensures Same(LookFour(sets, base, now), sets, key) {
      LookFourEffect(sets, base, now, key);
    }
    OthersApart(sets, LookFour(sets, base, now), userId, token);
  }

  function Summary(limits: QuotaLimits, perSecond: int, perMinute: int, perHour: int, perDay: int, now: int)
    : QuotaSummary
  {
    QuotaSummary(Quota(limits.perSecond, limits.perSecond - perSecond, Some(now + 1000)),
                 Quota(limits.perMinute, limits.perMinute - perMinute, Some(now + 60000)),
                 Quota(limits.perHour, limits.perHour - perHour, Some(now + 3600000)),
                 Quota(limits.perDay, limits.perDay - perDay, Some(now + 86400000)))
  }

  class SlidingWindowAlgorithm {
    var clock: int
    var sets: Sets

    constructor (clock: int)
      ensures this.clock == clock && sets == map[]
    {
      this.clock := clock;
      sets := map[];
    }

    method ZRange(key: SetKey) returns (members: seq<Member>)
      ensures members == Members(sets, clock, key)
    {
      members := [];
      if key in sets && !(sets[key].expiresAt.Some? && sets[key].expiresAt.value < clock) {
        members := sets[key].members;
      }
    }

    method ZRemRangeByScore(key: SetKey, gone: Member -> bool)
      modifies this`sets
      ensures sets == Remove(old(sets), clock, key, gone)
    {
      var members := ZRange(key);
      var kept := Filter(members, gone);
      if kept == [] {
        sets := sets - {key};
      } else {
        assert members != [];
        sets := sets[key := SortedSet(kept, sets[key].expiresAt)];
      }
    }

    method Filter(members: seq<Member>, gone: Member -> bool) returns (kept: seq<Member>)
      ensures kept == Without(members, gone)
    {
      kept := [];
      for i := 0 to |members|
        invariant kept == Without(members[..i], gone)
      {
        WithoutPush(members[..i], members[i], gone);
        assert members[..i] + [members[i]] == members[..i + 1];
        if !gone(members[i]) {
          kept := kept + [members[i]];
        }
      }
      assert members[..|members|] == members;
    }

    method ZAdd(key: SetKey, m: Member)
      modifies this`sets
      ensures sets == Insert(old(sets), clock, key, m)
    {
      var members := ZRange(key);
      var expiresAt := None;
      if members != [] {
        expiresAt := sets[key].expiresAt;
      }
      if m !in members {
        members := members + [m];
      }
      sets := sets[key := SortedSet(members, expiresAt)];
    }

    method Expire(key: SetKey, ttl: nat)
      modifies this`sets
      ensures sets == SetExpiry(old(sets), clock, key, ttl)
    {
      var members := ZRange(key);
      if members != [] {
        sets := sets[key := SortedSet(members, Some(clock + ttl))];
      }
    }

    method Sum(members: seq<Member>, part: Member -> int) returns (total: int)
      ensures total == SumBy(members, part)
    {
      total := 0;
      for i := 0 to |members|
        invariant total == SumBy(members[..i], part)
      {
        SumPush(members[..i], members[i], part);
        assert members[..i] + [members[i]] == members[..i + 1];
        total := total + part(members[i]);
      }
      assert members[..|members|] == members;
    }

    // One width of `request`: prune, add, sum, refresh the expiry.
    method Count(base: string, unit: Unit, score: nat, width: nat, ttl: nat) returns (consumed: int)
      requires width == Width(unit) && ttl == Ttl(unit)
      modifies this`sets
      ensures sets == AskOne(old(sets), base, unit, clock, score)
      ensures consumed == Consumed(sets, base, unit, clock)
    {
      hide Remove, Insert, SetExpiry, Members;
      var key := SetKey(base, unit);
      ZRemRangeByScore(key, UpTo(clock - width));
      ZAdd(key, Member(clock, score));
      var members := ZRange(key);
      consumed := Sum(members, ScoreOf());
      ExpiryKeeps(sets, clock, key, ttl);
      Expire(key, ttl);
    }

    method CountAll(base: string, score: nat) returns (perSecond: int, perMinute: int, perHour: int, perDay: int)
      modifies this`sets
      ensures sets == AskFour(old(sets), base, clock, score)
      ensures perSecond == Consumed(sets, base, Second, clock) && perMinute == Consumed(sets, base, Minute, clock)
      ensures perHour == Consumed(sets, base, Hour, clock) && perDay == Consumed(sets, base, Day, clock)
    {
      hide AskOne, Consumed;
      perSecond := Count(base, Second, score, 1000, 2000);
      ghost var s1 := sets;
      perMinute := Count(base, Minute, score, 60000, 61000);
      ghost var s2 := sets;
      perHour := Count(base, Hour, score, 3600000, 3601000);
      ghost var s3 := sets;
      perDay := Count(base, Day, score, 86400000, 86401000);
      StillCounted(s1, s2, s3, sets, base, clock, score);
    }

    method RollBackAll(base: string)
      modifies this`sets
      ensures sets == DropFour(old(sets), base, clock)
    {
      ZRemRangeByScore(SetKey(base, Second), OnlyBefore(clock));
      ZRemRangeByScore(SetKey(base, Minute), OnlyBefore(clock));
      ZRemRangeByScore(SetKey(base, Hour), OnlyBefore(clock));
      ZRemRangeByScore(SetKey(base, Day), OnlyBefore(clock));
    }

    method PruneAll(base: string)
      modifies this`sets
      ensures sets == LookFour(old(sets), base, clock)
    {
      hide Remove;
      ZRemRangeByScore(SetKey(base, Second), UpTo(clock - 1000));
      ZRemRangeByScore(SetKey(base, Minute), UpTo(clock - 60000));
      ZRemRangeByScore(SetKey(base, Hour), UpTo(clock - 3600000));
      ZRemRangeByScore(SetKey(base, Day), UpTo(clock - 86400000));
    }

    /** Answers and leaves the sets as the model does; admitted, it reports what each window has left. */
    method Request(userId: string, token: string, score: nat, limits: QuotaLimits)
      returns (result: Result<QuotaSummary, TooManyRequests>)
      modifies this`sets
      ensures (sets, result.Success?) == Serve(old(sets), BaseKey(userId, token), clock, score, limits)
      ensures result.Success? ==> result.value == QuotaSummary(
                Left(limits, userId, token, Second), Left(limits, userId, token, Minute),
                Left(limits, userId, token, Hour), Left(limits, userId, token, Day))
      ensures OthersKept(old(sets), sets, userId, token) && ExpireSoon(sets, BaseKey(userId, token), clock)
    {
      ServeTouches(sets, userId, token, clock, score, limits);
      hide AskFour, DropFour, Fits, OthersKept, ExpireSoon, BaseKey;
      var base := BaseKey(userId, token);
      var perSecond, perMinute, perHour, perDay := CountAll(base, score);
      FitsFour(sets, base, clock, limits);
      if perSecond > limits.perSecond || perMinute > limits.perMinute
         || perHour > limits.perHour || perDay > limits.perDay
      {
        RollBackAll(base);
        return Failure(TooManyRequests);
      }
      result := Success(Summary(limits, perSecond, perMinute, perHour, perDay, clock));
    }

    ghost function Left(limits: QuotaLimits, userId: string, token: string, unit: Unit): Quota
      reads this
    {
      Quota(LimitOf(limits, unit), LimitOf(limits, unit) - Consumed(sets, BaseKey(userId, token), unit, clock),
            Some(clock + Width(unit)))
    }

    ghost function Timed(limits: QuotaLimits, userId: string, token: string, unit: Unit): Quota
      reads this
    {
      var members := Members(sets, clock, SetKey(BaseKey(userId, token), unit));
      Quota(LimitOf(limits, unit), LimitOf(limits, unit) - SumBy(members, TimeOf()), Some(clock + Width(unit)))
    }

    /**
     `quota` prunes the four sets; the numbers it goes on to report take the members' times from the limit, not their
     scores.
     */
    method GetQuota(userId: string, token: string, limits: QuotaLimits) returns (summary: QuotaSummary)
      modifies this`sets
      ensures sets == LookFour(old(sets), BaseKey(userId, token), clock)
      ensures summary == QuotaSummary(
                Timed(limits, userId, token, Second), Timed(limits, userId, token, Minute),
                Timed(limits, userId, token, Hour), Timed(limits, userId, token, Day))
      ensures OthersKept(old(sets), sets, userId, token)
    {
      LookTouches(sets, userId, token, clock);
      hide LookFour, Members, SumBy, OthersKept, BaseKey;
      var base := BaseKey(userId, token);
      PruneAll(base);
      var seconds := ZRange(SetKey(base, Second));
      var perSecond := Sum(seconds, TimeOf());
      var minutes := ZRange(SetKey(base, Minute));
      var perMinute := Sum(minutes, TimeOf());
      var hours := ZRange(SetKey(base, Hour));
      var perHour := Sum(hours, TimeOf());
      var days := ZRange(SetKey(base, Day));
      var perDay := Sum(days, TimeOf());
      summary := Summary(limits, perSecond, perMinute, perHour, perDay, clock);
    }
  }

  lemma {:induction false} FitsFour(sets: Sets, base: string, now: int, limits: QuotaLimits)
    ensures Fits(sets, base, now, limits)
            <==> Consumed(sets, base, Second, now) <= limits.perSecond
                 && Consumed(sets, base, Minute, now) <= limits.perMinute
                 && Consumed(sets, base, Hour, now) <= limits.perHour
                 && Consumed(sets, base, Day, now) <= limits.perDay
  {
    assert LimitOf(limits, Second) == limits.perSecond && LimitOf(limits, Minute) == limits.perMinute;
    assert LimitOf(limits, Hour) == limits.perHour && LimitOf(limits, Day) == limits.perDay;
  }

  lemma {:induction false} ExpiryKeeps(sets: Sets, now: int, key: SetKey, ttl: nat)
    requires 0 < ttl
    ensures Members(SetExpiry(sets, now, key, ttl), now, key) == Members(sets, now, key)
  {
  }

  // The later widths leave the earlier sets alone.
  lemma {:induction false} StillCounted(s1: Sets, s2: Sets, s3: Sets, s4: Sets, base: string, now: int, score: nat)
    requires s2 == AskOne(s1, base, Minute, now, score)
    requires s3 == AskOne(s2, base, Hour, now, score)
    requires s4 == AskOne(s3, base, Day, now, score)
    ensures Consumed(s4, base, Second, now) == Consumed(s1, base, Second, now)
    ensures Consumed(s4, base, Minute, now) == Consumed(s2, base, Minute, now)
    ensures Consumed(s4, base, Hour, now) == Consumed(s3, base, Hour, now)
  {
    hide AskOne, Joined;
    forall unit | unit == Second || unit == Minute || unit == Hour
      ensures Same(s4, if unit == Second then s1 else if unit == Minute then s2 else s3, SetKey(base, unit))
    {
      AskOneEffect(s1, base, Minute, now, score, SetKey(base, unit));
      AskOneEffect(s2, base, Hour, now, score, SetKey(base, unit));
      AskOneEffect(s3, base, Day, now, score, SetKey(base, unit));
    }
  }
}
