/**
 The quota-limits repository behind its cache. Operations of the decorator do not overlap, and the clock never goes
 back. Anyone may drop entries of the shared cache, or set entries of other prefixes, at any time.
 */
module QuotaCache {
  import opened InMemoryCaches
  import opened Quotas
  import opened Wrappers

  const PREFIX := "quota-limits:"

  const ONE_DAY := 86400000

  function KeyOf(userId: string): string {
    PREFIX + userId
  }

  type Store = map<string, QuotaLimits>

  type Entries = map<string, Entry<QuotaLimits>>

  datatype State = State(now: int, repository: Store, entries: Entries)

  datatype Op =
    | OfUser(userId: string)
    | Update(userId: string, limits: QuotaLimits)
    | UpdateBehind(userId: string, limits: QuotaLimits)
    | Drop(key: string)
    | DropAll
    | SetOther(key: string, entry: Entry<QuotaLimits>)
    | Elapse(ms: nat)

  function Find(store: Store, userId: string): Option<QuotaLimits> {
    if userId in store then Some(store[userId]) else None
  }

  function Fresh(s: State, limits: QuotaLimits): Entry<QuotaLimits> {
    Entry(limits, s.now, Some(ONE_DAY))
  }

  // What ofUser answers, and the state it leaves.
  function Reply(s: State, userId: string): Option<QuotaLimits> {
    var cached := Look(s.entries, KeyOf(userId), s.now);
    if cached.Some? then cached else Find(s.repository, userId)
  }

  function AfterOfUser(s: State, userId: string): State {
    var key := KeyOf(userId);
    if Look(s.entries, key, s.now).Some? then s
    else
      var entries, limits := Read(s.entries, key, s.now), Find(s.repository, userId);
      s.(entries := if limits.Some? then entries[key := Fresh(s, limits.value)] else entries)
  }

  function Next(s: State, op: Op): State {
    match op
    case OfUser(userId) => AfterOfUser(s, userId)
    case Update(userId, limits) =>
      s.(repository := s.repository[userId := limits], entries := s.entries[KeyOf(userId) := Fresh(s, limits)])
    case UpdateBehind(userId, limits) => s.(repository := s.repository[userId := limits])
    case Drop(key) => s.(entries := s.entries - {key})
    case DropAll => s.(entries := map[])
    case SetOther(key, entry) => if PREFIX <= key then s else s.(entries := s.entries[key := entry])
    case Elapse(ms) => s.(now := s.now + ms)
  }

  // The same operations on the repository alone.
  function PlainNext(store: Store, op: Op): Store {
    match op
    case Update(userId, limits) => store[userId := limits]
    case UpdateBehind(userId, limits) => store[userId := limits]
    case _ => store
  }

  function Run(s: State, ops: seq<Op>): State {
    if ops == [] then s else Next(Run(s, ops[..|ops| - 1]), ops[|ops| - 1])
  }

  function PlainRun(store: Store, ops: seq<Op>): Store {
    if ops == [] then store else PlainNext(PlainRun(store, ops[..|ops| - 1]), ops[|ops| - 1])
  }

  const Init := State(0, map[], map[])

  lemma {:induction false} KeysDiffer(a: string, b: string)
    ensures KeyOf(a) == KeyOf(b) <==> a == b
    ensures PREFIX <= KeyOf(a)
  {
    assert KeyOf(a)[|PREFIX|..] == a && KeyOf(b)[|PREFIX|..] == b;
  }

  // ----- Every write goes through the decorator -----

  /** What the cache holds for a user, expired or not, is what the repository holds. */
  ghost predicate Coherent(s: State) {
    forall userId :: KeyOf(userId) in s.entries ==> Find(s.repository, userId) == Some(s.entries[KeyOf(userId)].value)
  }

  predicate Through(ops: seq<Op>) {
    forall op :: op in ops ==> !op.UpdateBehind?
  }

  lemma {:induction false} StepCoherent(s: State, op: Op)
    requires Coherent(s) && !op.UpdateBehind?
    ensures Coherent(Next(s, op))
  {
    forall userId | KeyOf(userId) in Next(s, op).entries
      ensures Find(Next(s, op).repository, userId) == Some(Next(s, op).entries[KeyOf(userId)].value)
    {
      match op
      case OfUser(other) => KeysDiffer(userId, other);
      case Update(other, _) => KeysDiffer(userId, other);
      case SetOther(key, _) => KeysDiffer(userId, userId);
      case _ =>
    }
  }

  lemma {:induction false} RunCoherent(ops: seq<Op>)
    requires Through(ops)
    ensures Coherent(Run(Init, ops)) && Run(Init, ops).repository == PlainRun(map[], ops)
    decreases |ops|
  {
    if ops != [] {
      hide Coherent;
      RunCoherent(ops[..|ops| - 1]);
      StepCoherent(Run(Init, ops[..|ops| - 1]), ops[|ops| - 1]);
    } else {
      assert Coherent(Init);
    }
  }

  /**
   Whatever is read and updated through the decorator, however much time passes and whatever is dropped from the cache,
   each read answers what the repository alone would have answered.
   */
  lemma {:induction false} CachedIsPlain(ops: seq<Op>, userId: string)
    requires Through(ops)
    ensures Reply(Run(Init, ops), userId) == Find(PlainRun(map[], ops), userId)
  {
    RunCoherent(ops);
  }

  // ----- Writes behind the decorator -----

  /** That some state of the run, no earlier than `since`, held this for the user. */
  ghost predicate Held(ops: seq<Op>, userId: string, limits: Option<QuotaLimits>, since: int) {
    (Run(Init, ops).now >= since && Find(Run(Init, ops).repository, userId) == limits)
    || (ops != [] && Held(ops[..|ops| - 1], userId, limits, since))
  }

  lemma {:induction false} HeldSooner(ops: seq<Op>, userId: string, limits: Option<QuotaLimits>, since: int, sooner: int)
    requires Held(ops, userId, limits, since) && sooner <= since
    ensures Held(ops, userId, limits, sooner)
    decreases |ops|
  {
    if !(Run(Init, ops).now >= since && Find(Run(Init, ops).repository, userId) == limits) {
      HeldSooner(ops[..|ops| - 1], userId, limits, since, sooner);
    }
  }

  // What the cache holds for a user the repository held when the entry was made, and it expires a day later.
  ghost predicate Dated(ops: seq<Op>) {
    forall userId :: KeyOf(userId) in Run(Init, ops).entries ==>
      var entry := Run(Init, ops).entries[KeyOf(userId)];
      entry.ttl == Some(ONE_DAY) && Held(ops, userId, Some(entry.value), entry.createdAt)
  }

  lemma {:induction false} StepDated(ops: seq<Op>)
    requires ops != [] && Dated(ops[..|ops| - 1])
    ensures Dated(ops)
  {
    hide Held, Run;
    var before, op := ops[..|ops| - 1], ops[|ops| - 1];
    var s, s' := Run(Init, before), Run(Init, ops);
    RunLast(ops);
    forall userId | KeyOf(userId) in s'.entries
      ensures s'.entries[KeyOf(userId)].ttl == Some(ONE_DAY)
      ensures Held(ops, userId, Some(s'.entries[KeyOf(userId)].value), s'.entries[KeyOf(userId)].createdAt)
    {
      KeysDiffer(userId, userId);
      if op.OfUser? || op.Update? {
        KeysDiffer(userId, op.userId);
      }
      if KeyOf(userId) in s.entries && s'.entries[KeyOf(userId)] == s.entries[KeyOf(userId)] {
        HeldStill(ops, userId, Some(s.entries[KeyOf(userId)].value), s.entries[KeyOf(userId)].createdAt);
      } else {
        HeldNow(ops, userId);
      }
    }
  }

  lemma {:induction false} RunLast(ops: seq<Op>)
    requires ops != []
    ensures Run(Init, ops) == Next(Run(Init, ops[..|ops| - 1]), ops[|ops| - 1])
  {
  }

  lemma {:induction false} HeldStill(ops: seq<Op>, userId: string, limits: Option<QuotaLimits>, since: int)
    requires ops != [] && Held(ops[..|ops| - 1], userId, limits, since)
    ensures Held(ops, userId, limits, since)
  {
  }

  lemma {:induction false} HeldNow(ops: seq<Op>, userId: string)
    ensures Held(ops, userId, Find(Run(Init, ops).repository, userId), Run(Init, ops).now)
  {
  }

  lemma {:induction false} RunDated(ops: seq<Op>)
    ensures Dated(ops)
    decreases |ops|
  {
    if ops != [] {
      RunDated(ops[..|ops| - 1]);
      StepDated(ops);
    }
  }

  /**
   Even when the repository is also written behind the decorator's back, a read answers what the repository held at some
   instant of the last day.
   */
  lemma {:induction false} StaleAtMostADay(ops: seq<Op>, userId: string)
    ensures Held(ops, userId, Reply(Run(Init, ops), userId), Run(Init, ops).now - 24 * 60 * 60 * 1000)
  {
    hide Held;
    var s := Run(Init, ops);
    RunDated(ops);
    HeldNow(ops, userId);
    if Look(s.entries, KeyOf(userId), s.now).Some? {
      var entry := s.entries[KeyOf(userId)];
      HeldSooner(ops, userId, Some(entry.value), entry.createdAt, s.now - ONE_DAY);
    } else {
      HeldSooner(ops, userId, Find(s.repository, userId), s.now, s.now - ONE_DAY);
    }
  }

  // ----- When a read is stale, told by the operations alone -----

  function TimeAt(ops: seq<Op>): nat {
    if ops == [] then 0
    else TimeAt(ops[..|ops| - 1]) + if ops[|ops| - 1].Elapse? then ops[|ops| - 1].ms else 0
  }

  // The limits last written for a user, through the decorator or behind it.
  function LastWritten(ops: seq<Op>, userId: string): Option<QuotaLimits> {
    if ops == [] then None
    else
      var last := ops[|ops| - 1];
      if (last.Update? || last.UpdateBehind?) && last.userId == userId then Some(last.limits)
      else LastWritten(ops[..|ops| - 1], userId)
  }

  predicate Drops(op: Op, userId: string) {
    op.DropAll? || (op.Drop? && op.key == KeyOf(userId))
  }

  // Whether what the n-th operation cached is at most a day old.
  predicate Young(ops: seq<Op>, n: nat)
    requires n < |ops|
  {
    TimeAt(ops) <= TimeAt(ops[..n + 1]) + 24 * 60 * 60 * 1000
  }

  // The operation that cached what is stored for the user: an update, or a read that found nothing young.
  function CachedBy(ops: seq<Op>, userId: string): (n: Option<nat>)
    ensures n.Some? ==> n.value < |ops|
  {
    if ops == [] then None
    else
      var before, last := ops[..|ops| - 1], ops[|ops| - 1];
      var earlier := CachedBy(before, userId);
      if Drops(last, userId) then None
      else if last.Update? && last.userId == userId then Some(|ops| - 1)
      else if last.OfUser? && last.userId == userId && !(earlier.Some? && Young(before, earlier.value)) then
        if LastWritten(before, userId).Some? then Some(|ops| - 1) else None
      else earlier
  }

  lemma {:induction false} TimeGrows(ops: seq<Op>, n: nat)
    requires n <= |ops|
    ensures TimeAt(ops[..n]) <= TimeAt(ops)
    decreases |ops|
  {
    if n < |ops| {
      assert ops[..|ops| - 1][..n] == ops[..n];
      TimeGrows(ops[..|ops| - 1], n);
    } else {
      assert ops[..n] == ops;
    }
  }

  lemma {:induction false} RunTold(ops: seq<Op>, userId: string)
    ensures Run(Init, ops).now == TimeAt(ops)
    ensures Find(Run(Init, ops).repository, userId) == LastWritten(ops, userId)
    ensures Find(PlainRun(map[], ops), userId) == LastWritten(ops, userId)
    decreases |ops|
  {
    if ops != [] {
      RunTold(ops[..|ops| - 1], userId);
    }
  }

  function EntryOf(s: State, userId: string): Option<Entry<QuotaLimits>> {
    if KeyOf(userId) in s.entries then Some(s.entries[KeyOf(userId)]) else None
  }

  // What one operation leaves stored for a user.
  lemma {:induction false} StepEntry(s: State, op: Op, userId: string)
    ensures EntryOf(Next(s, op), userId)
            == if Drops(op, userId) then None
               else if op.Update? && op.userId == userId then Some(Fresh(s, op.limits))
               else if op.OfUser? && op.userId == userId && Look(s.entries, KeyOf(userId), s.now).None? then
                 var limits := Find(s.repository, userId);
                 if limits.Some? then Some(Fresh(s, limits.value)) else None
               else EntryOf(s, userId)
  {
    KeysDiffer(userId, userId);
    if op.OfUser? || op.Update? {
      KeysDiffer(userId, op.userId);
    }
  }

  lemma {:induction false} LookYoung(s: State, userId: string)
    ensures var entry := EntryOf(s, userId);
            Look(s.entries, KeyOf(userId), s.now).Some? <==> entry.Some? && !Expired(entry.value, s.now)
  {
  }

  // That the entry stored for a user, if any, is the one those operations cached.
  ghost predicate EntryTold(ops: seq<Op>, userId: string) {
    var entry, n := EntryOf(Run(Init, ops), userId), CachedBy(ops, userId);
    if entry.Some? then
      && n.Some? && LastWritten(ops[..n.value + 1], userId).Some?
      && entry.value == Entry(LastWritten(ops[..n.value + 1], userId).value, TimeAt(ops[..n.value + 1]), Some(ONE_DAY))
    else n.Some? ==> !Young(ops, n.value)
  }

  lemma {:induction false} StepTold(ops: seq<Op>, userId: string)
    requires ops != [] && EntryTold(ops[..|ops| - 1], userId)
    ensures EntryTold(ops, userId)
  {
    hide Run, Next, LastWritten, TimeAt, EntryOf, Look, KeyOf, Find;
    var before, op := ops[..|ops| - 1], ops[|ops| - 1];
    RunLast(ops);
    RunTold(before, userId);
    RunTold(ops, userId);
    StepEntry(Run(Init, before), op, userId);
    LookYoung(Run(Init, before), userId);
    assert ops[..|ops|] == ops;
    TimeGrows(ops, |before|);
    var earlier := CachedBy(before, userId);
    if earlier.Some? {
      assert before[..earlier.value + 1] == ops[..earlier.value + 1];
    }
    WrittenLast(ops, userId);
  }

  // What an operation of the user's own writes, and when.
  lemma {:induction false} WrittenLast(ops: seq<Op>, userId: string)
    requires ops != []
    ensures var before, op := ops[..|ops| - 1], ops[|ops| - 1];
            && (op.Update? && op.userId == userId ==> LastWritten(ops, userId) == Some(op.limits))
            && (op.OfUser? ==> LastWritten(ops, userId) == LastWritten(before, userId))
            && (!op.Elapse? ==> TimeAt(ops) == TimeAt(before))
  {
  }

  lemma {:induction false} AllTold(ops: seq<Op>, userId: string)
    ensures EntryTold(ops, userId)
    decreases |ops|
  {
    if ops != [] {
      AllTold(ops[..|ops| - 1], userId);
      StepTold(ops, userId);
    }
  }

  /**
   After any operations, a read differs from the repository exactly when what answers it was cached at most a day ago,
   not dropped or cached again since, and other limits have been written since.
   */
  lemma {:induction false} StaleIff(ops: seq<Op>, userId: string)
    ensures var n := CachedBy(ops, userId);
            Reply(Run(Init, ops), userId) != Find(PlainRun(map[], ops), userId) <==>
            n.Some? && Young(ops, n.value) && LastWritten(ops, userId) != LastWritten(ops[..n.value + 1], userId)
  {
    hide Run, PlainRun, CachedBy, LastWritten, TimeAt;
    RunTold(ops, userId);
    AllTold(ops, userId);
  }

  /** Limits written behind the decorator are not seen by the next read. */
  lemma {:induction false} StaleRead(before: QuotaLimits, after: QuotaLimits)
    ensures var ops := [Update("u", before), UpdateBehind("u", after)];
            Reply(Run(Init, ops), "u") == Some(before) && Find(PlainRun(map[], ops), "u") == Some(after)
  {
    var ops := [Update("u", before), UpdateBehind("u", after)];
    assert ops[..1] == [ops[0]] && ops[..1][..0] == [];
  }

  /** Since an operation cached what is stored, nothing dropped it and only writes behind the decorator came for the user. */
  lemma {:induction false} UndisturbedSince(ops: seq<Op>, userId: string, i: nat)
    requires CachedBy(ops, userId).Some? && CachedBy(ops, userId).value < i < |ops|
    ensures !Drops(ops[i], userId) && !(ops[i].Update? && ops[i].userId == userId)
    decreases |ops|
  {
    if i < |ops| - 1 {
      UndisturbedSince(ops[..|ops| - 1], userId, i);
    }
  }

  /** So other limits have been written since only if some were written behind the decorator. */
  lemma {:induction false} StaleByOthers(ops: seq<Op>, userId: string)
    requires Reply(Run(Init, ops), userId) != Find(PlainRun(map[], ops), userId)
    ensures var n := CachedBy(ops, userId);
            n.Some? && exists i, limits :: n.value < i < |ops| && ops[i] == UpdateBehind(userId, limits)
  {
    StaleIff(ops, userId);
    var n := CachedBy(ops, userId).value;
    WrittenBetween(ops, userId, n + 1);
    var i :| n < i < |ops| && (ops[i].Update? || ops[i].UpdateBehind?) && ops[i].userId == userId;
    UndisturbedSince(ops, userId, i);
    assert ops[i] == UpdateBehind(userId, ops[i].limits);
  }

  lemma {:induction false} WrittenBetween(ops: seq<Op>, userId: string, n: nat)
    requires n <= |ops| && LastWritten(ops, userId) != LastWritten(ops[..n], userId)
    ensures exists i :: n <= i < |ops| && (ops[i].Update? || ops[i].UpdateBehind?) && ops[i].userId == userId
    decreases |ops|
  {
    assert ops[..|ops|] == ops;
    var last := ops[|ops| - 1];
    if !((last.Update? || last.UpdateBehind?) && last.userId == userId) {
      assert ops[..|ops| - 1][..n] == ops[..n];
      WrittenBetween(ops[..|ops| - 1], userId, n);
      var i :| n <= i < |ops| - 1 && (ops[..|ops| - 1][i].Update? || ops[..|ops| - 1][i].UpdateBehind?)
               && ops[..|ops| - 1][i].userId == userId;
      assert ops[i] == ops[..|ops| - 1][i];
    }
  }

  // ----- The code itself -----

  class InMemoryQuotaLimitsRepository {
    var map_: Store

    constructor ()
      ensures map_ == map[]
    {
      map_ := map[];
    }

    method OfUserId(userId: string) returns (limits: Option<QuotaLimits>)
      ensures limits == Find(map_, userId)
    {
      limits := if userId in map_ then Some(map_[userId]) else None;
    }

    method UpdateLimits(userId: string, limits: QuotaLimits)
      modifies this
      ensures map_ == old(map_)[userId := limits]
    {
      map_ := map_[userId := limits];
    }
  }

  class QuotaLimitsRepositoryCacheDecorator {
    const cache: InMemoryCache<QuotaLimits>
    const repository: InMemoryQuotaLimitsRepository

    constructor (cache: InMemoryCache<QuotaLimits>, repository: InMemoryQuotaLimitsRepository)
      ensures this.cache == cache && this.repository == repository
    {
      this.cache, this.repository := cache, repository;
    }

    ghost function Abs(now: int): State
      reads cache, repository
    {
      State(now, repository.map_, cache.map_)
    }

    method OfUserId(userId: string, now: int) returns (limits: Option<QuotaLimits>)
      modifies cache
      ensures limits == Reply(old(Abs(now)), userId)
      ensures Abs(now) == Next(old(Abs(now)), OfUser(userId))
    {
      var key := "quota-limits:" + userId;
      var cached := cache.GetValue(key, now);
      if cached.Some? {
        return cached;
      }
      limits := repository.OfUserId(userId);
      if limits.Some? {
        cache.SetValue(key, limits.value, Some(ONE_DAY), now);
      }
    }

    method UpdateLimits(userId: string, limits: QuotaLimits, now: int)
      modifies cache, repository
      ensures Abs(now) == Next(old(Abs(now)), Update(userId, limits))
    {
      repository.UpdateLimits(userId, limits);
      var key := "quota-limits:" + userId;
      cache.SetValue(key, limits, Some(ONE_DAY), now);
    }
  }
}
