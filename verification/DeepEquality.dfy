/** Deep equality of primitives, dates, value objects and nested records. */
module DeepEquality {
  import opened Wrappers

  datatype Number = NaN | Infinity | MinusInfinity | Of(value: real)

  // A date holds its time. A record holds its own properties in the order they were added.
  datatype Value =
    | Undefined
    | Null
    | Bool(b: bool)
    | Num(n: Number)
    | Str(s: string)
    | Date(time: Number)
    | ValueObject(value: Value)
    | Record(properties: seq<Property>)

  datatype Property = Property(key: string, value: Value)

  datatype Type = TUndefined | TObject | TBoolean | TNumber | TString

  // JavaScript's typeof, for which null is an object.
  function TypeOf(v: Value): Type {
    match v
    case Undefined => TUndefined
    case Bool(_) => TBoolean
    case Num(_) => TNumber
    case Str(_) => TString
    case _ => TObject
  }

  predicate IsBasePrimitive(v: Value) {
    v.Str? || v.Num? || v.Bool? || v.Null? || v.Undefined?
  }

  // JavaScript's === on numbers: NaN equals nothing.
  predicate NumbersEqual(a: Number, b: Number) {
    a != NaN && a == b
  }

  // JavaScript's ===, where one side is a base primitive.
  predicate StrictEqual(a: Value, b: Value) {
    if a.Num? && b.Num? then NumbersEqual(a.n, b.n) else IsBasePrimitive(a) && a == b
  }

  // What Object.keys sees: a date has no properties of its own, a value object the one that holds its value.
  function Fields(v: Value): seq<Property> {
    match v
    case Record(properties) => properties
    case ValueObject(value) => [Property("_value", value)]
    case _ => []
  }

  function Find(fields: seq<Property>, key: string): Option<Value> {
    if fields == [] then None
    else if fields[0].key == key then Some(fields[0].value)
    else Find(fields[1..], key)
  }

  predicate DeepEqual(first: Value, second: Value)
    decreases first
  {
    if TypeOf(first) != TypeOf(second) then false
    else if IsBasePrimitive(first) || IsBasePrimitive(second) then StrictEqual(first, second)
    else if first.ValueObject? && second.ValueObject? then DeepEqual(first.value, second.value)
    else if first.Date? && second.Date? then NumbersEqual(first.time, second.time)
    else
      var f, g := Fields(first), Fields(second);
      |f| == |g|
      && forall i :: 0 <= i < |f| ==>
           Find(g, f[i].key).Some? && DeepEqual(f[i].value, Find(g, f[i].key).value)
  }

  // ----- Structural equality -----

  predicate Compound(v: Value) {
    v.Record? || v.ValueObject?
  }

  /**
   Structural equality whatever the order of keys: the same properties on both sides, and the same values under them.
   A value object counts as the record of its one property, and NaN equals nothing. `loose` lets a date face a record
   without properties.
   */
  predicate Same(loose: bool, a: Value, b: Value)
    decreases a
  {
    if Compound(a) && Compound(b) then
      var f, g := Fields(a), Fields(b);
      && (forall i :: 0 <= i < |f| ==> Find(g, f[i].key).Some? && Same(loose, f[i].value, Find(g, f[i].key).value))
      && (forall j :: 0 <= j < |g| ==> Find(f, g[j].key).Some?)
    else
      (a == b && a != Num(NaN) && a != Date(NaN)) || (loose && ((a.Date? && b == Record([])) || (a == Record([]) && b.Date?)))
  }

  predicate Distinct(fields: seq<Property>) {
    forall i, j :: 0 <= i < j < |fields| ==> fields[i].key != fields[j].key
  }

  // A record never has two properties of one key.
  predicate WellFormed(v: Value)
    decreases v
  {
    && Distinct(Fields(v))
    && forall i :: 0 <= i < |Fields(v)| ==> WellFormed(Fields(v)[i].value)
  }

  predicate NaNFree(v: Value)
    decreases v
  {
    && v != Num(NaN) && v != Date(NaN)
    && forall i :: 0 <= i < |Fields(v)| ==> NaNFree(Fields(v)[i].value)
  }

  // Somewhere in `v` there is a date.
  predicate HasDate(v: Value)
    decreases v
  {
    v.Date? || exists i :: 0 <= i < |Fields(v)| && HasDate(Fields(v)[i].value)
  }

  // Somewhere in `v` there is a record without properties.
  predicate HasEmpty(v: Value)
    decreases v
  {
    v == Record([]) || exists i :: 0 <= i < |Fields(v)| && HasEmpty(Fields(v)[i].value)
  }

  lemma {:induction false} FindAt(fields: seq<Property>, key: string)
    ensures var found := Find(fields, key);
            && (found.Some? ==> exists i :: 0 <= i < |fields| && fields[i] == Property(key, found.value))
            && (found.None? ==> forall i :: 0 <= i < |fields| ==> fields[i].key != key)
    decreases |fields|
  {
    if fields != [] && fields[0].key != key {
      FindAt(fields[1..], key);
      if Find(fields[1..], key).Some? {
        var i :| 0 <= i < |fields[1..]| && fields[1..][i] == Property(key, Find(fields[1..], key).value);
        assert fields[i + 1] == fields[1..][i];
      } else {
        assert forall i :: 1 <= i < |fields| ==> fields[i] == fields[1..][i - 1];
      }
    }
  }

  lemma {:induction false} FindOwn(fields: seq<Property>, i: nat)
    requires Distinct(fields) && i < |fields|
    ensures Find(fields, fields[i].key) == Some(fields[i].value)
  {
    FindAt(fields, fields[i].key);
  }

  function KeySet(fields: seq<Property>): (keys: set<string>) {
    set i | 0 <= i < |fields| :: fields[i].key
  }

  lemma {:induction false} KeyCount(fields: seq<Property>)
    requires Distinct(fields)
    ensures |KeySet(fields)| == |fields|
    decreases |fields|
  {
    if fields != [] {
      var before, last := fields[..|fields| - 1], fields[|fields| - 1];
      KeyCount(before);
      assert forall i :: 0 <= i < |before| ==> before[i] == fields[i];
      assert KeySet(fields) == KeySet(before) + {last.key};
    }
  }

  ghost predicate Included(f: seq<Property>, g: seq<Property>) {
    forall i :: 0 <= i < |f| ==> Find(g, f[i].key).Some?
  }

  lemma {:induction false} IncludedKeys(f: seq<Property>, g: seq<Property>)
    ensures Included(f, g) <==> KeySet(f) <= KeySet(g)
  {
    forall i | 0 <= i < |f| ensures Find(g, f[i].key).Some? <==> f[i].key in KeySet(g) {
      FindAt(g, f[i].key);
    }
    assert forall key :: key in KeySet(f) <==> exists i :: 0 <= i < |f| && f[i].key == key;
    assert forall i :: 0 <= i < |f| ==> f[i].key in KeySet(f);
  }

  lemma {:induction false} SubsetCount(a: set<string>, b: set<string>)
    requires a <= b
    ensures |a| <= |b| && (|a| == |b| ==> a == b)
  {
    assert b == a + (b - a);
  }

  /** Equal counts and one inclusion are the same as both inclusions. */
  lemma {:induction false} CountedInclusion(f: seq<Property>, g: seq<Property>)
    requires Distinct(f) && Distinct(g)
    ensures |f| == |g| && Included(f, g) <==> Included(f, g) && Included(g, f)
  {
    KeyCount(f);
    KeyCount(g);
    IncludedKeys(f, g);
    IncludedKeys(g, f);
    if Included(f, g) { SubsetCount(KeySet(f), KeySet(g)); }
    if Included(g, f) { SubsetCount(KeySet(g), KeySet(f)); }
  }

  // How the code compares two lists of properties, and how structural equality does.
  predicate Compares(f: seq<Property>, g: seq<Property>) {
    |f| == |g| && forall i :: 0 <= i < |f| ==> Find(g, f[i].key).Some? && DeepEqual(f[i].value, Find(g, f[i].key).value)
  }

  ghost predicate SameFields(loose: bool, f: seq<Property>, g: seq<Property>) {
    && Included(f, g) && Included(g, f)
    && forall i :: 0 <= i < |f| && Find(g, f[i].key).Some? ==> Same(loose, f[i].value, Find(g, f[i].key).value)
  }

  lemma {:induction false} SameIs(loose: bool, a: Value, b: Value)
    requires Compound(a) && Compound(b)
    ensures Same(loose, a, b) <==> SameFields(loose, Fields(a), Fields(b))
  {
    hide Find;
  }

  // Value objects compare by their values: those are their one property.
  lemma {:induction false} ComparesIs(a: Value, b: Value)
    requires Compound(a) && Compound(b)
    ensures DeepEqual(a, b) <==> Compares(Fields(a), Fields(b))
  {
    if a.ValueObject? && b.ValueObject? {
      assert Find(Fields(b), "_value") == Some(b.value);
      assert Fields(a)[0] == Property("_value", a.value);
    }
  }

  lemma {:induction false} SimpleIff(a: Value, b: Value)
    requires !(Compound(a) && Compound(b))
    ensures DeepEqual(a, b) <==> Same(true, a, b)
  {
  }

  /** On every input the code decides structural equality, but for dates that face records without properties. */
  lemma {:induction false} DeepEqualIff(a: Value, b: Value)
    requires WellFormed(a) && WellFormed(b)
    ensures DeepEqual(a, b) <==> Same(true, a, b)
    decreases a
  {
    hide DeepEqual, Same, Distinct;
    if Compound(a) && Compound(b) {
      var f, g := Fields(a), Fields(b);
      CountedInclusion(f, g);
      forall i | 0 <= i < |f| && Find(g, f[i].key).Some?
        ensures DeepEqual(f[i].value, Find(g, f[i].key).value) <==> Same(true, f[i].value, Find(g, f[i].key).value)
      {
        FindAt(g, f[i].key);
        DeepEqualIff(f[i].value, Find(g, f[i].key).value);
      }
      FieldsIff(f, g);
      ComparesIs(a, b);
      SameIs(true, a, b);
    } else {
      SimpleIff(a, b);
    }
  }

  lemma {:induction false} FieldsIff(f: seq<Property>, g: seq<Property>)
    requires |f| == |g| && Included(f, g) <==> Included(f, g) && Included(g, f)
    requires forall i :: 0 <= i < |f| && Find(g, f[i].key).Some? ==>
               (DeepEqual(f[i].value, Find(g, f[i].key).value) <==> Same(true, f[i].value, Find(g, f[i].key).value))
    ensures Compares(f, g) <==> SameFields(true, f, g)
  {
    hide DeepEqual, Same, Find;
  }

  // ----- The laws of an equivalence -----

  lemma {:induction false} SameReflexive(loose: bool, a: Value)
    requires WellFormed(a) && NaNFree(a)
    ensures Same(loose, a, a)
    decreases a
  {
    forall i | 0 <= i < |Fields(a)|
      ensures Find(Fields(a), Fields(a)[i].key).Some?
      ensures Same(loose, Fields(a)[i].value, Find(Fields(a), Fields(a)[i].key).value)
    {
      FindOwn(Fields(a), i);
      SameReflexive(loose, Fields(a)[i].value);
    }
  }

  // The values under a key that both sides have are the same.
  lemma {:induction false} SameUnder(loose: bool, a: Value, b: Value, key: string)
    requires WellFormed(a) && Same(loose, a, b) && Compound(a) && Compound(b)
    ensures Find(Fields(a), key).Some? <==> Find(Fields(b), key).Some?
    ensures Find(Fields(a), key).Some? ==> Same(loose, Find(Fields(a), key).value, Find(Fields(b), key).value)
  {
    FindAt(Fields(a), key);
    FindAt(Fields(b), key);
  }

  lemma {:induction false} SameSymmetric(loose: bool, a: Value, b: Value)
    requires WellFormed(a) && WellFormed(b) && Same(loose, a, b)
    ensures Same(loose, b, a)
    decreases a
  {
    if Compound(a) && Compound(b) {
      var f, g := Fields(a), Fields(b);
      forall j | 0 <= j < |g| ensures Find(f, g[j].key).Some? && Same(loose, g[j].value, Find(f, g[j].key).value) {
        SameUnder(loose, a, b, g[j].key);
        FindOwn(g, j);
        FindAt(f, g[j].key);
        SameSymmetric(loose, Find(f, g[j].key).value, g[j].value);
      }
    }
  }

  lemma {:induction false} SameTransitive(loose: bool, a: Value, b: Value, c: Value)
    requires WellFormed(a) && WellFormed(b) && WellFormed(c) && Same(loose, a, b) && Same(loose, b, c)
    requires loose ==> !HasEmpty(b)
    ensures Same(loose, a, c)
    decreases a
  {
    if Compound(a) && Compound(b) && Compound(c) {
      var f, g, h := Fields(a), Fields(b), Fields(c);
      forall i | 0 <= i < |f| ensures Find(h, f[i].key).Some? && Same(loose, f[i].value, Find(h, f[i].key).value) {
        SameUnder(loose, a, b, f[i].key);
        SameUnder(loose, b, c, f[i].key);
        FindOwn(f, i);
        FindAt(g, f[i].key);
        FindAt(h, f[i].key);
        SameTransitive(loose, f[i].value, Find(g, f[i].key).value, Find(h, f[i].key).value);
      }
      forall j | 0 <= j < |h| ensures Find(f, h[j].key).Some? {
        FindOwn(h, j);
        SameUnder(loose, b, c, h[j].key);
        SameUnder(loose, a, b, h[j].key);
      }
    }
  }

  lemma {:induction false} SameNaNFree(a: Value)
    requires WellFormed(a) && Same(true, a, a)
    ensures NaNFree(a)
    decreases a
  {
    forall i | 0 <= i < |Fields(a)| ensures NaNFree(Fields(a)[i].value) {
      FindOwn(Fields(a), i);
      SameNaNFree(Fields(a)[i].value);
    }
  }

  /** Symmetric on every input, and reflexive exactly without NaN. */
  lemma {:induction false} SymmetricAndReflexive(a: Value, b: Value)
    requires WellFormed(a) && WellFormed(b)
    ensures DeepEqual(a, b) <==> DeepEqual(b, a)
    ensures DeepEqual(a, a) <==> NaNFree(a)
  {
    DeepEqualIff(a, b);
    DeepEqualIff(b, a);
    if Same(true, a, b) { SameSymmetric(true, a, b); }
    if Same(true, b, a) { SameSymmetric(true, b, a); }
    DeepEqualIff(a, a);
    if NaNFree(a) { SameReflexive(true, a); } else if Same(true, a, a) { SameNaNFree(a); }
  }

  // ----- Dates against records without properties -----

  /** Two dates that differ both equal the empty record. */
  lemma {:induction false} DatesEqualEmpty()
    ensures DeepEqual(Date(Of(0.0)), Record([])) && DeepEqual(Record([]), Date(Of(1.0)))
    ensures !DeepEqual(Date(Of(0.0)), Date(Of(1.0)))
  {
  }

  // `v` with every empty record turned into the date of that time, or, given no time, every date into an empty record.
  function Swap(v: Value, time: Option<real>): Value
    decreases v
  {
    if v == Record([]) && time.Some? then Date(Of(time.value))
    else if v.Date? && time.None? then Record([])
    else match v
      case ValueObject(value) => ValueObject(Swap(value, time))
      case Record(ps) =>
        Record(seq(|ps|, i requires 0 <= i < |ps| => Property(ps[i].key, Swap(ps[i].value, time))))
      case _ => v
  }

  lemma {:induction false} SwapFields(v: Value, time: Option<real>)
    requires Compound(v) && !(v == Record([]) && time.Some?)
    ensures Compound(Swap(v, time)) && |Fields(Swap(v, time))| == |Fields(v)|
    ensures forall i :: 0 <= i < |Fields(v)| ==>
              Fields(Swap(v, time))[i] == Property(Fields(v)[i].key, Swap(Fields(v)[i].value, time))
  {
  }

  lemma {:induction false} SwapLoose(v: Value, time: Option<real>)
    requires WellFormed(v) && NaNFree(v)
    ensures var w := Swap(v, time); WellFormed(w) && NaNFree(w) && Same(true, v, w)
    decreases v
  {
    if Compound(v) && !(v == Record([]) && time.Some?) {
      var w := Swap(v, time);
      var f, g := Fields(v), Fields(w);
      SwapFields(v, time);
      forall i | 0 <= i < |f|
        ensures WellFormed(g[i].value) && NaNFree(g[i].value) && Find(f, g[i].key).Some?
        ensures Find(g, f[i].key) == Some(g[i].value) && Same(true, f[i].value, g[i].value)
      {
        SwapLoose(f[i].value, time);
        FindOwn(f, i);
        FindOwn(g, i);
      }
    }
  }

  // Whether Swap changes anything.
  predicate Swappable(v: Value, time: Option<real>) {
    if time.Some? then HasEmpty(v) else HasDate(v)
  }

  lemma {:induction false} SwapStrict(v: Value, time: Option<real>)
    requires WellFormed(v) && NaNFree(v) && Swappable(v, time)
    ensures !Same(false, v, Swap(v, time))
    decreases v
  {
    if Compound(v) && !(v == Record([]) && time.Some?) {
      var i :| 0 <= i < |Fields(v)| && Swappable(Fields(v)[i].value, time);
      SwapFields(v, time);
      SwapStrict(Fields(v)[i].value, time);
      SwapLoose(v, time);
      FindOwn(Fields(Swap(v, time)), i);
    }
  }

  lemma {:induction false} SwapApart(v: Value, s: real, t: real)
    requires WellFormed(v) && NaNFree(v) && HasEmpty(v) && s != t
    ensures !Same(true, Swap(v, Some(s)), Swap(v, Some(t)))
    decreases v
  {
    if v != Record([]) {
      var i :| 0 <= i < |Fields(v)| && HasEmpty(Fields(v)[i].value);
      SwapFields(v, Some(s));
      SwapFields(v, Some(t));
      SwapApart(Fields(v)[i].value, s, t);
      SwapLoose(v, Some(t));
      FindOwn(Fields(Swap(v, Some(t))), i);
    }
  }

  lemma {:induction false} LooseIsStrict(a: Value, b: Value)
    requires !HasDate(a) && !HasEmpty(a)
    ensures Same(true, a, b) <==> Same(false, a, b)
    decreases a
  {
    if Compound(a) && Compound(b) {
      hide Same, Find;
      var f, g := Fields(a), Fields(b);
      forall i | 0 <= i < |f| && Find(g, f[i].key).Some?
        ensures Same(true, f[i].value, Find(g, f[i].key).value) <==> Same(false, f[i].value, Find(g, f[i].key).value)
      {
        LooseIsStrict(f[i].value, Find(g, f[i].key).value);
      }
    }
  }

  ghost predicate Structural(a: Value, b: Value) {
    WellFormed(b) ==> (DeepEqual(a, b) <==> Same(false, a, b))
  }

  /** Against every value, the code decides structural equality exactly for values without dates and empty records. */
  lemma {:induction false} StructuralIff(a: Value)
    requires WellFormed(a) && NaNFree(a)
    ensures (forall b :: Structural(a, b)) <==> !HasDate(a) && !HasEmpty(a)
  {
    forall b | WellFormed(b) && !HasDate(a) && !HasEmpty(a) ensures Structural(a, b) {
      DeepEqualIff(a, b);
      LooseIsStrict(a, b);
    }
    if HasDate(a) || HasEmpty(a) {
      var time := if HasDate(a) then None else Some(0.0);
      SwapLoose(a, time);
      SwapStrict(a, time);
      DeepEqualIff(a, Swap(a, time));
      assert !Structural(a, Swap(a, time));
    }
  }

  lemma {:induction false} LooseIsStrictDateless(a: Value, b: Value)
    requires WellFormed(a) && WellFormed(b) && !HasDate(a) && !HasDate(b)
    ensures Same(true, a, b) <==> Same(false, a, b)
    decreases a
  {
    if Compound(a) && Compound(b) {
      hide Same, Find;
      var f, g := Fields(a), Fields(b);
      forall i | 0 <= i < |f| && Find(g, f[i].key).Some?
        ensures Same(true, f[i].value, Find(g, f[i].key).value) <==> Same(false, f[i].value, Find(g, f[i].key).value)
      {
        FindAt(g, f[i].key);
        LooseIsStrictDateless(f[i].value, Find(g, f[i].key).value);
      }
      SameIs(true, a, b);
      SameIs(false, a, b);
    }
  }

  /** Among values without dates the code decides structural equality, whatever the order of keys. */
  lemma {:induction false} DatelessStructural(a: Value, b: Value)
    requires WellFormed(a) && WellFormed(b) && !HasDate(a) && !HasDate(b)
    ensures DeepEqual(a, b) <==> Same(false, a, b)
  {
    DeepEqualIff(a, b);
    LooseIsStrictDateless(a, b);
  }

  ghost predicate Chains(a: Value, b: Value, c: Value) {
    WellFormed(a) && WellFormed(c) && DeepEqual(a, b) && DeepEqual(b, c) ==> DeepEqual(a, c)
  }

  /** Equality passes through a value, whatever it is compared with, exactly when no record in it is empty. */
  lemma {:induction false} TransitiveIff(b: Value)
    requires WellFormed(b) && NaNFree(b)
    ensures (forall a, c :: Chains(a, b, c)) <==> !HasEmpty(b)
  {
    if HasEmpty(b) {
      var a, c := Swap(b, Some(0.0)), Swap(b, Some(1.0));
      SwapLoose(b, Some(0.0));
      SwapLoose(b, Some(1.0));
      SwapApart(b, 0.0, 1.0);
      SameSymmetric(true, b, a);
      DeepEqualIff(a, b);
      DeepEqualIff(b, c);
      DeepEqualIff(a, c);
      assert !Chains(a, b, c);
    } else {
      forall a, c | WellFormed(a) && WellFormed(c) && DeepEqual(a, b) && DeepEqual(b, c) ensures DeepEqual(a, c) {
        DeepEqualIff(a, b);
        DeepEqualIff(b, c);
        DeepEqualIff(a, c);
        SameTransitive(true, a, b, c);
      }
    }
  }

  /** Among values without dates it is transitive. */
  lemma {:induction false} DatelessTransitive(a: Value, b: Value, c: Value)
    requires WellFormed(a) && WellFormed(b) && WellFormed(c) && !HasDate(a) && !HasDate(b) && !HasDate(c)
    requires DeepEqual(a, b) && DeepEqual(b, c)
    ensures DeepEqual(a, c)
  {
    DatelessStructural(a, b);
    DatelessStructural(b, c);
    DatelessStructural(a, c);
    SameTransitive(false, a, b, c);
  }
}
