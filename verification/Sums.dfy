/** Sums of a weight over the elements of a sequence. */
module Sums {

  function SumBy<T>(s: seq<T>, weight: T -> int): int {
    if s == [] then 0 else weight(s[0]) + SumBy(s[1..], weight)
  }

  lemma {:induction false} SumAppend<T>(s: seq<T>, t: seq<T>, weight: T -> int)
    ensures SumBy(s + t, weight) == SumBy(s, weight) + SumBy(t, weight)
  {
    if s == [] {
      assert s + t == t;
    } else {
      SumAppend(s[1..], t, weight);
      assert (s + t)[1..] == s[1..] + t;
    }
  }

  lemma {:induction false} SumPush<T>(s: seq<T>, x: T, weight: T -> int)
    ensures SumBy(s + [x], weight) == SumBy(s, weight) + weight(x)
  {
    SumAppend(s, [x], weight);
  }

  lemma {:induction false} SumUpdate<T>(s: seq<T>, i: nat, x: T, weight: T -> int)
    requires i < |s|
    ensures SumBy(s[i := x], weight) == SumBy(s, weight) - weight(s[i]) + weight(x)
  {
    if i == 0 {
      assert s[0 := x][1..] == s[1..];
    } else {
      SumUpdate(s[1..], i - 1, x, weight);
      assert s[i := x][1..] == s[1..][i - 1 := x];
    }
  }

  lemma {:induction false} SumMono<T>(s: seq<T>, lesser: T -> int, greater: T -> int)
    requires forall x :: x in s ==> lesser(x) <= greater(x)
    ensures SumBy(s, lesser) <= SumBy(s, greater)
  {
    if s != [] {
      SumMono(s[1..], lesser, greater);
    }
  }

  lemma {:induction false} SumNonNegative<T>(s: seq<T>, weight: T -> int)
    requires forall x :: x in s ==> 0 <= weight(x)
    ensures 0 <= SumBy(s, weight)
    ensures forall x :: x in s ==> weight(x) <= SumBy(s, weight)
  {
    if s != [] {
      SumNonNegative(s[1..], weight);
    }
  }

  lemma {:induction false} SumSplit<T>(s: seq<T>, whole: T -> int, left: T -> int, right: T -> int)
    requires forall x :: x in s ==> whole(x) <= left(x) + right(x)
    ensures SumBy(s, whole) <= SumBy(s, left) + SumBy(s, right)
  {
    if s != [] {
      SumSplit(s[1..], whole, left, right);
    }
  }

  lemma {:induction false} SumSame<T>(s: seq<T>, f: T -> int, g: T -> int)
    requires forall x :: x in s ==> f(x) == g(x)
    ensures SumBy(s, f) == SumBy(s, g)
  {
    if s != [] {
      SumSame(s[1..], f, g);
    }
  }
}
