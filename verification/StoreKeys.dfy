/** The texts under which three rate limiters keep their counters and sets in one store. */
module StoreKeys {
  import FW = FixedWindow
  import Intervals
  import opened Quotas
  import SW = SlidingWindow
  import TB = TokenBucket

  // The names of the windows, as the fixed and the sliding window spell them.
  function Word(unit: Unit): string {
    match unit case Second => "secondly" case Minute => "minutely" case Hour => "hourly" case Day => "daily"
  }

  // The key of a fixed window's counter; its window starts at no negative instant.
  function CounterText(key: FW.Key): string
    requires 0 <= key.start
  {
    key.base + ":" + Word(key.unit) + ":" + Intervals.Decimal(key.start)
  }

  function SetText(key: SW.SetKey): string {
    key.base + ":" + Word(key.unit)
  }

  // What the script of the token bucket's timer asks for: every key that starts so.
  const BUCKETS := "rate-limiting:token-bucket:"

  lemma {:induction false} LastPiece(a: string, x: string, b: string, y: string)
    requires a + ":" + x == b + ":" + y && ':' !in x && ':' !in y
    ensures a == b && x == y
  {
    var text := a + ":" + x;
    assert forall i :: |a| < i < |text| ==> text[i] == x[i - |a| - 1] && text[i] in x;
    assert forall i :: |b| < i < |text| ==> text[i] == y[i - |b| - 1] && text[i] in y;
    assert text[|a|] == ':' && text[|b|] == ':';
    assert a == text[..|a|] && b == text[..|b|];
    assert x == text[|a| + 1..] && y == text[|b| + 1..];
  }

  lemma {:induction false} WordsDiffer(a: Unit, b: Unit)
    ensures ':' !in Word(a) && (Word(a) == Word(b) <==> a == b)
  {
    assert Word(Second)[0] == 's' && Word(Minute)[0] == 'm' && Word(Hour)[0] == 'h' && Word(Day)[0] == 'd';
  }

  lemma {:induction false} DigitsPlain(n: nat)
    ensures ':' !in Intervals.Decimal(n)
  {
    var digits := Intervals.Decimal(n);
    assert forall i :: 0 <= i < |digits| ==> Intervals.IsDigit(digits[i]);
  }

  /** Two counters of the fixed window have one key only if they are one: of one base, one unit and one window. */
  lemma {:induction false} CounterTextIff(a: FW.Key, b: FW.Key)
    requires 0 <= a.start && 0 <= b.start
    ensures CounterText(a) == CounterText(b) <==> a == b
  {
    if CounterText(a) == CounterText(b) {
      DigitsPlain(a.start);
      DigitsPlain(b.start);
      LastPiece(a.base + ":" + Word(a.unit), Intervals.Decimal(a.start), b.base + ":" + Word(b.unit),
                Intervals.Decimal(b.start));
      Intervals.ValueOfDecimal(a.start);
      Intervals.ValueOfDecimal(b.start);
      WordsDiffer(a.unit, b.unit);
      WordsDiffer(b.unit, a.unit);
      LastPiece(a.base, Word(a.unit), b.base, Word(b.unit));
    }
  }

  /** And so for the sets of the sliding window. */
  lemma {:induction false} SetTextIff(a: SW.SetKey, b: SW.SetKey)
    ensures SetText(a) == SetText(b) <==> a == b
  {
    if SetText(a) == SetText(b) {
      WordsDiffer(a.unit, b.unit);
      WordsDiffer(b.unit, a.unit);
      LastPiece(a.base, Word(a.unit), b.base, Word(b.unit));
    }
  }

  /**
   The timer's script finds the counter of every pair, and no key of the fixed or the sliding window; and those two never
   share one.
   */
  lemma {:induction false} StoresApart(userId: string, token: string, u: string, t: string, rest: string, other: string)
    ensures BUCKETS <= TB.Key(userId, token)
    ensures !(BUCKETS <= FW.BaseKey(userId, token) + rest) && !(BUCKETS <= SW.BaseKey(userId, token) + rest)
    ensures FW.BaseKey(userId, token) + rest != SW.BaseKey(u, t) + other
  {
    var n := |"rate-limiting:"|;
    assert (FW.BaseKey(userId, token) + rest)[n] == 'f';
    assert (SW.BaseKey(userId, token) + rest)[n] == 's' && (SW.BaseKey(u, t) + other)[n] == 's';
    assert BUCKETS[n] == 't';
  }
}
