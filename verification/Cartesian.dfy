/** Cartesian products of arrays and of the arrays in a record, with their spreading of nested arrays. */
module Cartesian {
  datatype Js = Arr(elements: seq<Js>) | Null | Undefined | Atom(id: int)

  // An array is spread into a tuple; anything else goes in whole.
  function Spread(x: Js): seq<Js> {
    if x.Arr? then x.elements else [x]
  }

  // ----- Mixed-radix positions -----

  function Count(arrays: seq<seq<Js>>): nat {
    if arrays == [] then 1 else Count(arrays[..|arrays| - 1]) * |arrays[|arrays| - 1]|
  }

  // One index into each array.
  ghost predicate Choice(arrays: seq<seq<Js>>, c: seq<nat>) {
    |c| == |arrays| && forall i :: 0 <= i < |c| ==> c[i] < |arrays[i]|
  }

  /** The digits of `k`, the last array's first to change. */
  function Digits(arrays: seq<seq<Js>>, k: nat): (c: seq<nat>)
    requires k < Count(arrays)
    ensures |c| == |arrays|
  {
    if arrays == [] then []
    else
      var last := |arrays[|arrays| - 1]|;
      Below(k, Count(arrays[..|arrays| - 1]), last);
      Digits(arrays[..|arrays| - 1], k / last) + [k % last]
  }

  function Rank(arrays: seq<seq<Js>>, c: seq<nat>): nat
    requires |c| == |arrays|
  {
    if arrays == [] then 0
    else Rank(arrays[..|arrays| - 1], c[..|c| - 1]) * |arrays[|arrays| - 1]| + c[|c| - 1]
  }

  function Pick(arrays: seq<seq<Js>>, c: seq<nat>): seq<Js>
    requires Choice(arrays, c)
  {
    if arrays == [] then [] else Pick(arrays[..|arrays| - 1], c[..|c| - 1]) + [arrays[|arrays| - 1][c[|c| - 1]]]
  }

  ghost predicate Before(c: seq<nat>, d: seq<nat>) {
    c != [] && d != [] && (c[0] < d[0] || (c[0] == d[0] && Before(c[1..], d[1..])))
  }

  lemma {:induction false} Below(k: nat, n: nat, last: nat)
    requires k < n * last
    ensures 0 < last && 0 <= k / last < n && 0 <= k % last < last
  {
    if k / last >= n {
      Scale(n, k / last, last);
    }
  }

  lemma {:induction false} Scale(a: nat, b: nat, m: nat)
    requires a <= b
    ensures a * m <= b * m
  {
  }

  lemma {:induction false} Split(q: nat, m: nat, r: nat)
    requires r < m
    ensures (q * m + r) / m == q && (q * m + r) % m == r
  {
    var k := q * m + r;
    var q', r' := k / m, k % m;
    assert k == q' * m + r' && 0 <= r' < m;
    if q' < q { Scale(q' + 1, q, m); } else if q' > q { Scale(q + 1, q', m); }
  }

  /** The digits of a position choose from every array, and the position is their rank. */
  lemma {:induction false} RankOfDigits(arrays: seq<seq<Js>>, k: nat)
    requires k < Count(arrays)
    ensures Choice(arrays, Digits(arrays, k)) && Rank(arrays, Digits(arrays, k)) == k
    decreases |arrays|
  {
    if arrays != [] {
      hide Digits, Rank, Count, Choice;
      var before, last := arrays[..|arrays| - 1], |arrays[|arrays| - 1]|;
      DigitsSplit(arrays, k);
      var q, r, c := k / last, k % last, Digits(before, k / last);
      RankOfDigits(before, q);
      assert (c + [r])[..|c|] == c;
      RankPush(arrays, c + [r]);
      ChoicePush(arrays, c, r);
      Quotient(k, last);
    }
  }

  lemma {:induction false} Quotient(k: nat, m: nat)
    requires 0 < m
    ensures k == k / m * m + k % m
  {
  }

  lemma {:induction false} ChoicePush(arrays: seq<seq<Js>>, c: seq<nat>, x: nat)
    requires arrays != [] && Choice(arrays[..|arrays| - 1], c) && x < |arrays[|arrays| - 1]|
    ensures Choice(arrays, c + [x])
  {
  }

  lemma {:induction false} DigitsSplit(arrays: seq<seq<Js>>, k: nat)
    requires arrays != [] && k < Count(arrays)
    ensures var last := |arrays[|arrays| - 1]|;
            && 0 < last && 0 <= k / last < Count(arrays[..|arrays| - 1]) && 0 <= k % last < last
            && Digits(arrays, k) == Digits(arrays[..|arrays| - 1], k / last) + [k % last]
  {
    Below(k, Count(arrays[..|arrays| - 1]), |arrays[|arrays| - 1]|);
  }

  lemma {:induction false} DigitsPush(arrays: seq<seq<Js>>, r: nat, x: nat)
    requires arrays != [] && r < Count(arrays[..|arrays| - 1]) && x < |arrays[|arrays| - 1]|
    ensures r * |arrays[|arrays| - 1]| + x < Count(arrays)
    ensures Digits(arrays, r * |arrays[|arrays| - 1]| + x) == Digits(arrays[..|arrays| - 1], r) + [x]
  {
    var last := |arrays[|arrays| - 1]|;
    Split(r, last, x);
    Scale(r + 1, Count(arrays[..|arrays| - 1]), last);
    assert (r + 1) * last == r * last + last;
  }

  lemma {:induction false} RankPush(arrays: seq<seq<Js>>, c: seq<nat>)
    requires arrays != [] && |c| == |arrays|
    ensures Rank(arrays, c) == Rank(arrays[..|arrays| - 1], c[..|c| - 1]) * |arrays[|arrays| - 1]| + c[|c| - 1]
  {
  }

  /** Every choice is the digits of exactly one position, its rank. */
  lemma {:induction false} DigitsOfRank(arrays: seq<seq<Js>>, c: seq<nat>)
    requires Choice(arrays, c)
    ensures Rank(arrays, c) < Count(arrays) && Digits(arrays, Rank(arrays, c)) == c
    decreases |arrays|
  {
    if arrays == [] {
      assert c == [];
    } else {
      hide Rank, Digits, Count;
      var before, q := arrays[..|arrays| - 1], c[..|c| - 1];
      DigitsOfRank(before, q);
      RankPush(arrays, c);
      DigitsPush(arrays, Rank(before, q), c[|c| - 1]);
      assert c == q + [c[|c| - 1]];
    }
  }

  lemma {:induction false} BeforePush(c: seq<nat>, d: seq<nat>, x: nat, y: nat)
    requires |c| == |d|
    ensures Before(c + [x], d + [y]) <==> Before(c, d) || (c == d && x < y)
    decreases |c|
  {
    if c != [] {
      assert (c + [x])[1..] == c[1..] + [x] && (d + [y])[1..] == d[1..] + [y];
      assert c == [c[0]] + c[1..] && d == [d[0]] + d[1..];
      BeforePush(c[1..], d[1..], x, y);
    } else {
      assert (c + [x])[1..] == [] && (d + [y])[1..] == [];
    }
  }

  /** Positions are in lexicographic order of their choices. */
  lemma {:induction false} Lexicographic(arrays: seq<seq<Js>>, k: nat, l: nat)
    requires k < Count(arrays) && l < Count(arrays)
    ensures k < l <==> Before(Digits(arrays, k), Digits(arrays, l))
    decreases |arrays|
  {
    if arrays != [] {
      var before, last := arrays[..|arrays| - 1], |arrays[|arrays| - 1]|;
      Below(k, Count(before), last);
      Below(l, Count(before), last);
      Lexicographic(before, k / last, l / last);
      RankOfDigits(before, k / last);
      RankOfDigits(before, l / last);
      BeforePush(Digits(before, k / last), Digits(before, l / last), k % last, l % last);
      QuotientsFirst(k, l, last);
    }
  }

  lemma {:induction false} QuotientsFirst(k: nat, l: nat, m: nat)
    requires 0 < m
    ensures k < l <==> k / m < l / m || (k / m == l / m && k % m < l % m)
  {
    assert k == (k / m) * m + k % m && l == (l / m) * m + l % m;
    if k / m < l / m { Scale(k / m + 1, l / m, m); } else if l / m < k / m { Scale(l / m + 1, k / m, m); }
  }

  // ----- Products -----

  /** The k-th combination, in lexicographic order of its choices. */
  function Tuple(arrays: seq<seq<Js>>, k: nat): seq<Js>
    requires k < Count(arrays)
  {
    RankOfDigits(arrays, k);
    Pick(arrays, Digits(arrays, k))
  }

  // The k-th entry that repeated products leave: each spreads what it was given and appends one more element.
  function Folded(arrays: seq<seq<Js>>, k: nat): Js
    requires arrays != [] && k < Count(arrays)
  {
    if |arrays| == 1 then
      CountOne(arrays);
      arrays[0][k]
    else
      var before, last := arrays[..|arrays| - 1], arrays[|arrays| - 1];
      Below(k, Count(before), |last|);
      Arr(Spread(Folded(before, k / |last|)) + [last[k % |last|]])
  }

  function Entry(arrays: seq<seq<Js>>, k: nat): Js
    requires k < Count(arrays)
  {
    if arrays == [] then Arr([])
    else if |arrays| == 1 then
      CountOne(arrays);
      Arr([arrays[0][k]])
    else Folded(arrays, k)
  }

  lemma {:induction false} CountOne(arrays: seq<seq<Js>>)
    requires |arrays| == 1
    ensures Count(arrays) == |arrays[0]|
  {
    assert arrays[..0] == [];
  }

  lemma {:induction false} TuplePush(arrays: seq<seq<Js>>, k: nat)
    requires arrays != [] && k < Count(arrays)
    ensures var before, last := arrays[..|arrays| - 1], arrays[|arrays| - 1];
            && 0 < |last| && 0 <= k / |last| < Count(before) && 0 <= k % |last| < |last|
            && Tuple(arrays, k) == Tuple(before, k / |last|) + [last[k % |last|]]
            && Digits(arrays, k) == Digits(before, k / |last|) + [k % |last|]
  {
    var before, last := arrays[..|arrays| - 1], arrays[|arrays| - 1];
    Below(k, Count(before), |last|);
    RankOfDigits(arrays, k);
    RankOfDigits(before, k / |last|);
    var c := Digits(arrays, k);
    assert c[..|c| - 1] == Digits(before, k / |last|) && c[|c| - 1] == k % |last|;
  }

  // The element of the first array that the k-th combination takes.
  function FirstOf(arrays: seq<seq<Js>>, k: nat): Js
    requires arrays != [] && k < Count(arrays)
  {
    RankOfDigits(arrays, k);
    arrays[0][Digits(arrays, k)[0]]
  }

  lemma {:induction false} FirstAfter(arrays: seq<seq<Js>>, k: nat)
    requires 2 <= |arrays| && k < Count(arrays)
    ensures var before, last := arrays[..|arrays| - 1], |arrays[|arrays| - 1]|;
            0 < last && 0 <= k / last < Count(before) && FirstOf(arrays, k) == FirstOf(before, k / last)
  {
    hide Digits, Count;
    DigitsSplit(arrays, k);
    RankOfDigits(arrays, k);
    assert arrays[..|arrays| - 1][0] == arrays[0];
  }

  lemma {:induction false} TupleOne(arrays: seq<seq<Js>>, k: nat)
    requires |arrays| == 1 && k < Count(arrays)
    ensures k < |arrays[0]| && FirstOf(arrays, k) == arrays[0][k] && Tuple(arrays, k) == [arrays[0][k]]
    ensures Folded(arrays, k) == arrays[0][k]
  {
    CountOne(arrays);
    Split(0, |arrays[0]|, k);
    assert arrays[..0] == [];
    TuplePush(arrays, k);
  }

  lemma {:induction false} TupleStarts(arrays: seq<seq<Js>>, k: nat)
    requires arrays != [] && k < Count(arrays)
    ensures var t := Tuple(arrays, k); t != [] && t[0] == FirstOf(arrays, k)
    ensures Spread(Folded(arrays, k)) == Spread(FirstOf(arrays, k)) + Tuple(arrays, k)[1..]
    decreases |arrays|
  {
    hide FirstOf, Tuple, Digits, Count;
    var before, last := arrays[..|arrays| - 1], arrays[|arrays| - 1];
    TuplePush(arrays, k);
    if |arrays| == 1 {
      TupleOne(arrays, k);
      assert [arrays[0][k]][1..] == [];
      assert Spread(arrays[0][k]) + [] == Spread(arrays[0][k]);
    } else {
      FirstAfter(arrays, k);
      TupleStarts(before, k / |last|);
      var t := Tuple(before, k / |last|);
      assert (t + [last[k % |last|]])[1..] == t[1..] + [last[k % |last|]];
    }
  }

  lemma {:induction false} NotItsOwn(x: Js, rest: seq<Js>)
    requires x.Arr?
    ensures x.elements + rest != [x] + rest
  {
    if |x.elements| == 1 {
      assert (x.elements + rest)[0] == x.elements[0] && ([x] + rest)[0] == x;
    }
  }

  /** An entry is its combination, except that an array from the first of several arrays is spread into it. */
  lemma {:induction false} EntryIff(arrays: seq<seq<Js>>, k: nat)
    requires k < Count(arrays)
    ensures Entry(arrays, k) == Arr(Tuple(arrays, k)) <==> |arrays| < 2 || !FirstOf(arrays, k).Arr?
  {
    if arrays != [] {
      TupleStarts(arrays, k);
      TuplePush(arrays, k);
      var x, t := FirstOf(arrays, k), Tuple(arrays, k);
      if |arrays| == 1 {
        assert arrays[..0] == [];
        CountOne(arrays);
      } else {
        assert t == [x] + t[1..];
        if x.Arr? {
          NotItsOwn(x, t[1..]);
        }
      }
    }
  }

  ghost predicate Plain(arrays: seq<seq<Js>>) {
    |arrays| < 2 || Count(arrays) == 0 || forall x :: x in arrays[0] ==> !x.Arr?
  }

  // The position that takes element `j` of the first array, and the first of every other.
  function FirstChoice(n: nat, j: nat): seq<nat> {
    if n == 0 then [] else [j] + seq(n - 1, i => 0)
  }

  lemma {:induction false} NoneEmpty(arrays: seq<seq<Js>>)
    requires 0 < Count(arrays)
    ensures forall a :: a in arrays ==> a != []
  {
    if arrays != [] {
      Below(0, Count(arrays[..|arrays| - 1]), |arrays[|arrays| - 1]|);
      NoneEmpty(arrays[..|arrays| - 1]);
      assert arrays == arrays[..|arrays| - 1] + [arrays[|arrays| - 1]];
    }
  }

  /**
   The entries are all the combinations in order exactly when there is but one array, or nothing to combine, or no
   array among the elements of the first.
   */
  lemma {:induction false} AllCombinationsIff(arrays: seq<seq<Js>>)
    ensures (forall k: nat :: k < Count(arrays) ==> Entry(arrays, k) == Arr(Tuple(arrays, k))) <==> Plain(arrays)
  {
    hide Entry, Tuple, FirstOf, Count;
    if Plain(arrays) {
      forall k: nat | k < Count(arrays) ensures Entry(arrays, k) == Arr(Tuple(arrays, k)) {
        EntryIff(arrays, k);
        if arrays != [] {
          FirstIn(arrays, k);
        }
      }
    } else {
      var k := SpreadAt(arrays);
      EntryIff(arrays, k);
    }
  }

  lemma {:induction false} FirstIn(arrays: seq<seq<Js>>, k: nat)
    requires arrays != [] && k < Count(arrays)
    ensures FirstOf(arrays, k) in arrays[0]
  {
    hide Digits, Count;
    RankOfDigits(arrays, k);
  }

  lemma {:induction false} SpreadAt(arrays: seq<seq<Js>>) returns (k: nat)
    requires !Plain(arrays)
    ensures k < Count(arrays) && FirstOf(arrays, k).Arr?
  {
    var j :| 0 <= j < |arrays[0]| && arrays[0][j].Arr?;
    NoneEmpty(arrays);
    assert forall i :: 0 <= i < |arrays| ==> arrays[i] in arrays;
    var c := FirstChoice(|arrays|, j);
    DigitsOfRank(arrays, c);
    k := Rank(arrays, c);
  }

  /** Of [[1]] and [2] the one entry is [1, 2], not [[1], 2]. */
  lemma {:induction false} NestedSpread()
    ensures var arrays := [[Arr([Atom(1)])], [Atom(2)]];
            Count(arrays) == 1 && Entry(arrays, 0) == Arr([Atom(1), Atom(2)])
  {
    var arrays := [[Arr([Atom(1)])], [Atom(2)]];
    assert arrays[..1] == [arrays[0]] && arrays[..1][..0] == [];
    CountOne(arrays[..1]);
    assert Folded(arrays[..1], 0) == Arr([Atom(1)]);
    assert [Atom(1)] + [Atom(2)] == [Atom(1), Atom(2)];
  }

  /** Element i with element j, at position i * n + j. */
  ghost predicate IsProduct(result: seq<Js>, first: seq<Js>, second: seq<Js>) {
    forall k :: 0 <= k < |result| ==>
      && second != [] && 0 <= k / |second| < |first|
      && result[k] == Arr(Spread(first[k / |second|]) + [second[k % |second|]])
  }

  lemma {:induction false} ProductPush(result: seq<Js>, first: seq<Js>, second: seq<Js>, i: nat, j: nat)
    requires IsProduct(result, first, second) && i < |first| && j < |second| && |result| == i * |second| + j
    ensures IsProduct(result + [Arr(Spread(first[i]) + [second[j]])], first, second)
  {
    Split(i, |second|, j);
  }

  // ----- The code itself -----

  method CartesianProduct(first: seq<Js>, second: seq<Js>) returns (result: seq<Js>)
    ensures |result| == |first| * |second| && IsProduct(result, first, second)
  {
    hide IsProduct;
    result := [];
    assert IsProduct([], first, second) by { ProductNone(first, second); }
    for i := 0 to |first|
      invariant |result| == i * |second| && IsProduct(result, first, second)
    {
      for j := 0 to |second|
        invariant |result| == i * |second| + j && IsProduct(result, first, second)
      {
        ProductPush(result, first, second, i, j);
        var temp := if first[i].Arr? then first[i].elements else [first[i]];
        result := result + [Arr(temp + [second[j]])];
      }
    }
  }

  lemma {:induction false} ProductNone(first: seq<Js>, second: seq<Js>)
    ensures IsProduct([], first, second)
  {
  }

  ghost predicate Entries(result: seq<Js>, arrays: seq<seq<Js>>) {
    |result| == Count(arrays) && forall k: nat :: k < |result| ==> result[k] == Entry(arrays, k)
  }

  // What the loop has so far: the first array as it is, then the products of the first few.
  ghost predicate Partial(result: seq<Js>, arrays: seq<seq<Js>>) {
    && arrays != [] && |result| == Count(arrays)
    && forall k: nat :: k < |result| ==> result[k] == Folded(arrays, k)
  }

  lemma {:induction false} PartialNext(result: seq<Js>, result': seq<Js>, before: seq<seq<Js>>, last: seq<Js>)
    requires Partial(result, before) && |result'| == |result| * |last| && IsProduct(result', result, last)
    ensures Partial(result', before + [last])
  {
    var arrays := before + [last];
    assert arrays[..|before|] == before;
    forall k: nat | k < |result'| ensures result'[k] == Folded(arrays, k) {
      assert result'[k] == Arr(Spread(result[k / |last|]) + [last[k % |last|]]);
    }
  }

  lemma {:induction false} PartialOne(arrays: seq<seq<Js>>)
    requires |arrays| == 1
    ensures Partial(arrays[0], arrays)
  {
    CountOne(arrays);
  }

  /** No arrays have one empty combination; otherwise every position holds its entry. */
  method CartesianOf(arrays: seq<seq<Js>>) returns (result: seq<Js>)
    ensures Entries(result, arrays)
  {
    if |arrays| == 0 {
      return [Arr([])];
    }
    PartialOne(arrays[..1]);
    CountOne(arrays[..1]);
    if |arrays| == 1 {
      assert arrays[..1] == arrays;
      return seq(|arrays[0]|, i requires 0 <= i < |arrays[0]| => Arr([arrays[0][i]]));
    }
    hide Partial, IsProduct, Count, Folded;
    result := arrays[0];
    for i := 1 to |arrays|
      invariant Partial(result, arrays[..i])
    {
      assert arrays[..i + 1] == arrays[..i] + [arrays[i]];
      var product := CartesianProduct(result, arrays[i]);
      PartialNext(result, product, arrays[..i], arrays[i]);
      result := product;
    }
    assert arrays[..|arrays|] == arrays;
    PartialAll(result, arrays);
  }

  lemma {:induction false} PartialAll(result: seq<Js>, arrays: seq<seq<Js>>)
    requires Partial(result, arrays) && 2 <= |arrays|
    ensures Entries(result, arrays)
  {
  }

  // ----- Records -----

  // A record's own properties, in the order JavaScript enumerates them.
  datatype Property = Property(key: string, value: Js)

  predicate DistinctKeys(record: seq<Property>) {
    forall i, j :: 0 <= i < j < |record| ==> record[i].key != record[j].key
  }

  function Cleaned(record: seq<Property>): seq<Property> {
    if record == [] then []
    else
      var last := record[|record| - 1];
      Cleaned(record[..|record| - 1]) + if last.value.Null? || last.value.Undefined? then [] else [last]
  }

  function KeysOf(record: seq<Property>): (keys: seq<string>)
    ensures |keys| == |record| && forall i :: 0 <= i < |record| ==> keys[i] == record[i].key
  {
    seq(|record|, i requires 0 <= i < |record| => record[i].key)
  }

  // The values to choose from: those of an array, or the one value.
  function ChoicesOf(record: seq<Property>): (arrays: seq<seq<Js>>)
    ensures |arrays| == |record| && forall i :: 0 <= i < |record| ==> arrays[i] == Spread(record[i].value)
  {
    seq(|record|, i requires 0 <= i < |record| => Spread(record[i].value))
  }

  lemma {:induction false} CleanedKeeps(record: seq<Property>)
    ensures forall p :: p in Cleaned(record) <==> p in record && !p.value.Null? && !p.value.Undefined?
    ensures DistinctKeys(record) ==> DistinctKeys(Cleaned(record))
  {
    if record != [] {
      var before, last := record[..|record| - 1], record[|record| - 1];
      assert record == before + [last];
      CleanedKeeps(before);
      if DistinctKeys(record) {
        forall p | p in Cleaned(before) ensures p.key != last.key {
          assert p in before;
        }
      }
    }
  }

  // Cleaning keeps the order: what is cleaned from two stretches stands as they do.
  lemma {:induction false} CleanedInOrder(a: seq<Property>, b: seq<Property>)
    ensures Cleaned(a + b) == Cleaned(a) + Cleaned(b)
    decreases |b|
  {
    if b == [] {
      assert a + b == a;
    } else {
      assert (a + b)[..|a + b| - 1] == a + b[..|b| - 1];
      CleanedInOrder(a, b[..|b| - 1]);
    }
  }

  function At(elements: seq<Js>, j: nat): Js {
    if j < |elements| then elements[j] else Undefined
  }

  /** The record that gives each key the element at its place. */
  ghost predicate Row(row: map<string, Js>, keys: seq<string>, elements: seq<Js>) {
    && (forall key :: key in row ==> key in keys)
    && (forall j :: 0 <= j < |keys| ==> keys[j] in row && row[keys[j]] == At(elements, j))
  }

  ghost predicate Rows(result: seq<map<string, Js>>, keys: seq<string>, arrays: seq<seq<Js>>) {
    |result| == Count(arrays)
    && forall k: nat :: k < |result| ==> Entry(arrays, k).Arr? && Row(result[k], keys, Entry(arrays, k).elements)
  }

  lemma {:induction false} EntryIsArr(arrays: seq<seq<Js>>, k: nat)
    requires k < Count(arrays)
    ensures Entry(arrays, k).Arr?
  {
  }

  lemma {:induction false} RowNone(elements: seq<Js>)
    ensures Row(map[], [], elements)
  {
  }

  lemma {:induction false} RowPush(row: map<string, Js>, keys: seq<string>, j: nat, elements: seq<Js>)
    requires j < |keys| && Row(row, keys[..j], elements)
    requires forall i :: 0 <= i < j ==> keys[i] != keys[j]
    ensures Row(row[keys[j] := At(elements, j)], keys[..j + 1], elements)
  {
    assert keys[..j + 1] == keys[..j] + [keys[j]];
  }

  /** One record for each position, with the entry's elements under the keys that hold neither null nor undefined. */
  method CartesianOfRecord(record: seq<Property>) returns (result: seq<map<string, Js>>)
    requires DistinctKeys(record)
    ensures Rows(result, KeysOf(Cleaned(record)), ChoicesOf(Cleaned(record)))
  {
    hide Count, Entry, Row;
    var cleaned := Cleaned(record);
    CleanedKeeps(record);
    var keys, arrays := KeysOf(cleaned), ChoicesOf(cleaned);
    var product := CartesianOf(arrays);
    result := [];
    for i := 0 to |product|
      invariant |result| == i
      invariant forall k: nat :: k < i ==> Entry(arrays, k).Arr? && Row(result[k], keys, Entry(arrays, k).elements)
    {
      EntryIsArr(arrays, i);
      var temp: map<string, Js> := map[];
      RowNone(product[i].elements);
      assert keys[..0] == [];
      for j := 0 to |keys|
        invariant Row(temp, keys[..j], product[i].elements)
      {
        RowPush(temp, keys, j, product[i].elements);
        temp := temp[keys[j] := At(product[i].elements, j)];
      }
      assert keys[..|keys|] == keys;
      result := result + [temp];
    }
  }

  // With nothing of `x` spread in, some place differs.
  lemma {:induction false} ShiftDiffers(x: Js, rest: seq<Js>) returns (j: nat)
    requires x.Arr?
    ensures j <= |rest| && At(rest, j) != ([x] + rest)[j]
    decreases |rest|
  {
    if rest == [] || rest[0] != x {
      j := 0;
    } else {
      var i := ShiftDiffers(rest[0], rest[1..]);
      assert [rest[0]] + rest[1..] == rest;
      j := i + 1;
      assert At(rest, j) == At(rest[1..], i);
    }
  }

  lemma {:induction false} SpreadDiffers(x: Js, rest: seq<Js>) returns (j: nat)
    requires x.Arr?
    ensures j <= |rest| && At(x.elements + rest, j) != ([x] + rest)[j]
  {
    if x.elements == [] {
      assert x.elements + rest == rest;
      j := ShiftDiffers(x, rest);
    } else {
      j := 0;
      assert At(x.elements + rest, 0) == x.elements[0];
    }
  }

  lemma {:induction false} RowIff(row: map<string, Js>, keys: seq<string>, arrays: seq<seq<Js>>, k: nat)
    requires |keys| == |arrays| && k < Count(arrays)
    requires Entry(arrays, k).Arr? && Row(row, keys, Entry(arrays, k).elements)
    ensures Row(row, keys, Tuple(arrays, k)) <==> |arrays| < 2 || !FirstOf(arrays, k).Arr?
  {
    hide Count, Tuple, FirstOf, Digits, Folded;
    EntryIff(arrays, k);
    if 2 <= |arrays| && FirstOf(arrays, k).Arr? {
      TupleStarts(arrays, k);
      TupleLength(arrays, k);
      var t := Tuple(arrays, k);
      assert t == [t[0]] + t[1..];
      var j := SpreadDiffers(t[0], t[1..]);
      assert At(t, j) == t[j];
      assert row[keys[j]] == At(Entry(arrays, k).elements, j);
    }
  }

  lemma {:induction false} TupleLength(arrays: seq<seq<Js>>, k: nat)
    requires k < Count(arrays)
    ensures |Tuple(arrays, k)| == |arrays|
  {
    PickLength(arrays, Digits(arrays, k)) by { RankOfDigits(arrays, k); }
  }

  lemma {:induction false} PickLength(arrays: seq<seq<Js>>, c: seq<nat>)
    requires Choice(arrays, c)
    ensures |Pick(arrays, c)| == |arrays|
    decreases |arrays|
  {
    if arrays != [] {
      PickLength(arrays[..|arrays| - 1], c[..|c| - 1]);
    }
  }

  /** The records are one for each combination, in order, exactly when no array of the first key's array is spread. */
  lemma {:induction false} RecordIff(result: seq<map<string, Js>>, keys: seq<string>, arrays: seq<seq<Js>>)
    requires |keys| == |arrays| && Rows(result, keys, arrays)
    ensures (forall k: nat :: k < |result| ==> Row(result[k], keys, Tuple(arrays, k))) <==> Plain(arrays)
  {
    hide Entry, Tuple, FirstOf, Count, Row;
    if Plain(arrays) {
      forall k: nat | k < |result| ensures Row(result[k], keys, Tuple(arrays, k)) {
        RowIff(result[k], keys, arrays, k);
        if arrays != [] {
          FirstIn(arrays, k);
        }
      }
    } else {
      var k := SpreadAt(arrays);
      RowIff(result[k], keys, arrays, k);
    }
  }
}
