/**
 The in-memory cache with times to live. Entries are deleted only when a read finds them expired. An operation reads the
 clock once, as `now`; the clock never goes back. `truthy` is JavaScript's conversion of a stored value to a boolean.
 */
module InMemoryCaches {
  import opened Wrappers

  // The ttl is the option the caller gave, in milliseconds; absent or 0 means for ever.
  datatype Entry<V> = Entry(value: V, createdAt: int, ttl: Option<int>)

  predicate Expired<V>(entry: Entry<V>, now: int) {
    entry.ttl.Some? && entry.ttl.value != 0 && now > entry.createdAt + entry.ttl.value
  }

  function Look<V>(entries: map<string, Entry<V>>, key: string, now: int): Option<V> {
    if key in entries && !Expired(entries[key], now) then Some(entries[key].value) else None
  }

  // ----- Runs against a store that forgets nothing -----

  datatype Op<V> =
    | Get(key: string)
    | Set(key: string, value: V, ttl: Option<int>)
    | SetNx(key: string, value: V, ttl: Option<int>)
    | Invalidate(key: string)
    | Clear

  datatype Timed<V> = Timed(now: int, op: Op<V>)

  datatype Answer<V> = Value(value: Option<V>) | Done(done: bool)

  type Truth<!V> = V -> bool

  // The entries a read leaves: an expired one is dropped when it is looked at, and only then.
  function Read<V>(entries: map<string, Entry<V>>, key: string, now: int): map<string, Entry<V>> {
    if key in entries && Expired(entries[key], now) then entries - {key} else entries
  }

  function Apply<V>(truthy: Truth<V>, entries: map<string, Entry<V>>, t: Timed<V>): map<string, Entry<V>> {
    match t.op
    case Get(key) => Read(entries, key, t.now)
    case Set(key, value, ttl) => entries[key := Entry(value, t.now, ttl)]
    case SetNx(key, value, ttl) =>
      var found := Look(entries, key, t.now);
      if found.Some? && truthy(found.value) then Read(entries, key, t.now)
      else Read(entries, key, t.now)[key := Entry(value, t.now, ttl)]
    case Invalidate(key) => entries - {key}
    case Clear => map[]
  }

  function AnswerOf<V>(truthy: Truth<V>, entries: map<string, Entry<V>>, t: Timed<V>): Answer<V> {
    match t.op
    case Get(key) => Value(Look(entries, key, t.now))
    case Set(key, value, ttl) => Done(true)
    case SetNx(key, value, ttl) =>
      var found := Look(entries, key, t.now);
      Done(!(found.Some? && truthy(found.value)))
    case Invalidate(key) => Done(true)
    case Clear => Done(true)
  }

  function Run<V>(truthy: Truth<V>, ops: seq<Timed<V>>): map<string, Entry<V>> {
    if ops == [] then map[] else Apply(truthy, Run(truthy, ops[..|ops| - 1]), ops[|ops| - 1])
  }

  predicate Live<V>(entry: Option<Entry<V>>, now: int) {
    entry.Some? && !Expired(entry.value, now)
  }

  /** What was last written under a key, whether it has expired since or not, told by the operations alone. */
  function Written<V>(truthy: Truth<V>, ops: seq<Timed<V>>, key: string): Option<Entry<V>> {
    if ops == [] then None
    else
      var before, t := Written(truthy, ops[..|ops| - 1], key), ops[|ops| - 1];
      match t.op
      case Set(k, value, ttl) => if k == key then Some(Entry(value, t.now, ttl)) else before
      case SetNx(k, value, ttl) =>
        if k == key && !(Live(before, t.now) && truthy(before.value.value)) then Some(Entry(value, t.now, ttl)) else before
      case Invalidate(k) => if k == key then None else before
      case Clear => None
      case Get(_) => before
  }

  function Remembered<V>(entry: Option<Entry<V>>, now: int): Option<V> {
    if Live(entry, now) then Some(entry.value.value) else None
  }

  ghost predicate InOrder<V>(ops: seq<Timed<V>>, now: int) {
    ops == [] || (ops[|ops| - 1].now <= now && InOrder(ops[..|ops| - 1], ops[|ops| - 1].now))
  }

  /**
   Deleting expired entries only when they are read is never seen: at any time from the last operation on, every key
   reads as what was last written under it, unless that has expired.
   */
  lemma {:induction false} LazyDeletionUnseen<V>(truthy: Truth<V>, ops: seq<Timed<V>>, key: string, now: int)
    requires InOrder(ops, now)
    ensures Look(Run(truthy, ops), key, now) == Remembered(Written(truthy, ops, key), now)
    decreases |ops|
  {
    if ops != [] {
      var before, t := ops[..|ops| - 1], ops[|ops| - 1];
      LazyDeletionUnseen(truthy, before, key, t.now);
      LazyDeletionUnseen(truthy, before, key, now) by { LaterInOrder(before, t.now, now); }
    }
  }

  lemma {:induction false} LaterInOrder<V>(ops: seq<Timed<V>>, now: int, later: int)
    requires InOrder(ops, now) && now <= later
    ensures InOrder(ops, later)
  {
  }

  /** What setNx finds stays exactly when it counts as true, or is written again: a stored 0 or "" is overwritten. */
  lemma {:induction false} SetNxKeepsIff<V>(truthy: Truth<V>, entries: map<string, Entry<V>>, key: string, value: V,
                                            ttl: Option<int>, now: int)
    requires Look(entries, key, now).Some?
    ensures var found, t := Look(entries, key, now).value, Timed(now, SetNx(key, value, ttl));
            && (Look(Apply(truthy, entries, t), key, now) == Some(found)
                <==> truthy(found) || (value == found && !Expired(Entry(value, now, ttl), now)))
            && (AnswerOf(truthy, entries, t) == Done(false) <==> truthy(found))
  {
  }

  function NonZero(): Truth<int> {
    (n: int) => n != 0
  }

  /** A stored 0 is overwritten although it has not expired. */
  lemma {:induction false} ZeroOverwritten()
    ensures var first, second := Timed(0, Set("k", 0, None)), Timed(1, SetNx("k", 7, None));
            Look(Run(NonZero(), [first]), "k", 1) == Some(0) && Look(Run(NonZero(), [first, second]), "k", 1) == Some(7)
  {
    var first, second := Timed(0, Set("k", 0, None)), Timed(1, SetNx("k", 7, None));
    assert [first][..0] == [] && [first, second][..1] == [first];
  }

  // Whether an operation leaves what is stored under a key to be read as it was.
  predicate Spares<V>(op: Op<V>, key: string) {
    match op
    case Get(_) => true
    case Set(k, _, _) => k != key
    case SetNx(k, _, _) => k != key
    case Invalidate(k) => k != key
    case Clear => false
  }

  lemma {:induction false} WrittenSpared<V>(truthy: Truth<V>, before: seq<Timed<V>>, after: seq<Timed<V>>, key: string)
    requires forall t :: t in after ==> Spares(t.op, key)
    ensures Written(truthy, before + after, key) == Written(truthy, before, key)
    decreases |after|
  {
    if after == [] {
      assert before + after == before;
    } else {
      var rest, last := after[..|after| - 1], after[|after| - 1];
      assert (before + after)[..|before + after| - 1] == before + rest;
      assert last in after && forall t :: t in rest ==> t in after;
      WrittenSpared(truthy, before, rest, key);
    }
  }

  /**
   A value set with a time to live is read until that has passed, to the very millisecond, whatever becomes of other
   keys; without one, or with 0, it is read for ever.
   */
  lemma {:induction false} ReadUntil<V>(truthy: Truth<V>, before: seq<Timed<V>>, at: int, key: string, value: V,
                                        ttl: Option<int>, after: seq<Timed<V>>, now: int)
    requires InOrder(before + [Timed(at, Set(key, value, ttl))] + after, now)
    requires forall t :: t in after ==> Spares(t.op, key)
    ensures Look(Run(truthy, before + [Timed(at, Set(key, value, ttl))] + after), key, now)
            == if ttl == None || ttl == Some(0) || now - at <= ttl.value then Some(value) else None
  {
    var set_ := Timed(at, Op.Set(key, value, ttl));
    LazyDeletionUnseen(truthy, before + [set_] + after, key, now);
    WrittenSpared(truthy, before + [set_], after, key);
    assert (before + [set_])[..|before|] == before;
  }

  // ----- The code itself -----

  class InMemoryCache<V> {
    const truthy: Truth<V>
    var map_: map<string, Entry<V>>

    constructor (truthy: Truth<V>)
      ensures this.truthy == truthy && map_ == map[]
    {
      this.truthy, map_ := truthy, map[];
    }

    method GetValue(key: string, now: int) returns (value: Option<V>)
      modifies this
      ensures map_ == Apply(truthy, old(map_), Timed(now, Get(key)))
      ensures Value(value) == AnswerOf(truthy, old(map_), Timed(now, Get(key)))
    {
      if key !in map_ {
        return None;
      }
      var entry := map_[key];
      if entry.ttl.Some? && entry.ttl.value != 0 {
        if now > entry.createdAt + entry.ttl.value {
          map_ := map_ - {key};
          return None;
        }
      }
      return Some(entry.value);
    }

    method InvalidateKey(key: string)
      modifies this
      ensures map_ == Apply(truthy, old(map_), Timed(0, Invalidate(key)))
    {
      map_ := map_ - {key};
    }

    method SetValue(key: string, value: V, ttl: Option<int>, now: int)
      modifies this
      ensures map_ == Apply(truthy, old(map_), Timed(now, Set(key, value, ttl)))
    {
      map_ := map_[key := Entry(value, now, ttl)];
    }

    method SetIfAbsent(key: string, value: V, ttl: Option<int>, now: int) returns (done: bool)
      modifies this
      ensures map_ == Apply(truthy, old(map_), Timed(now, SetNx(key, value, ttl)))
      ensures Done(done) == AnswerOf(truthy, old(map_), Timed(now, SetNx(key, value, ttl)))
    {
      var entry := GetValue(key, now);
      if entry.Some? && truthy(entry.value) {
        return false;
      }
      SetValue(key, value, ttl, now);
      return true;
    }

    method ClearAll()
      modifies this
      ensures map_ == Apply(truthy, old(map_), Timed(0, Clear))
    {
      map_ := map[];
    }
  }
}
