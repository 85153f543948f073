/** The text of a custom interval, such as "every 1h 30m", and how the scheduler reads it. */
module Intervals {
  import opened Wrappers

  // A number read from text; None stands for NaN.
  type Parsed = Option<int>

  datatype Interval = Interval(hours: Parsed, minutes: Parsed, seconds: Parsed)

  predicate IsDigit(c: char) {
    '0' <= c <= '9'
  }

  function DigitValue(c: char): (d: nat)
    requires IsDigit(c)
    ensures d <= 9
  {
    c as int - '0' as int
  }

  function DigitOf(d: nat): (c: char)
    requires d <= 9
    ensures IsDigit(c) && DigitValue(c) == d
  {
    ('0' as int + d) as char
  }

  // The digits at the start of `s`.
  function Leading(s: string): (digits: string)
    ensures AllDigits(digits)
  {
    if s == "" || !IsDigit(s[0]) then "" else [s[0]] + Leading(s[1..])
  }

  predicate AllDigits(s: string) {
    forall i :: 0 <= i < |s| ==> IsDigit(s[i])
  }

  function ValueOf(digits: string): nat
    requires AllDigits(digits)
  {
    if digits == "" then 0 else ValueOf(digits[..|digits| - 1]) * 10 + DigitValue(digits[|digits| - 1])
  }

  // JavaScript's parseInt, on text that starts with no space and is not hexadecimal.
  function ParseInt(s: string): Parsed {
    var negative, rest := s != "" && s[0] == '-', if s != "" && (s[0] == '-' || s[0] == '+') then s[1..] else s;
    var digits := Leading(rest);
    if digits == "" then None else Some(Signed(negative, ValueOf(digits)))
  }

  // replace(pattern, ''): the first occurrence goes.
  function Remove(s: string, pattern: string): string {
    if pattern <= s then s[|pattern|..]
    else if s == "" then ""
    else [s[0]] + Remove(s[1..], pattern)
  }

  // split(' ')
  function Split(s: string): (parts: seq<string>)
    ensures parts != []
  {
    if s == "" then [""]
    else if s[0] == ' ' then [""] + Split(s[1..])
    else
      var rest := Split(s[1..]);
      [[s[0]] + rest[0]] + rest[1..]
  }

  function Take(interval: Interval, part: string): Interval {
    var i1 := if 's' in part then interval.(seconds := ParseInt(Remove(part, "s"))) else interval;
    var i2 := if 'm' in part then i1.(minutes := ParseInt(Remove(part, "m"))) else i1;
    if 'h' in part then i2.(hours := ParseInt(Remove(part, "h"))) else i2
  }

  function TakeAll(parts: seq<string>): Interval {
    if parts == [] then Interval(Some(0), Some(0), Some(0)) else Take(TakeAll(parts[..|parts| - 1]), parts[|parts| - 1])
  }

  function Parse(text: string): Interval {
    TakeAll(Split(Remove(text, "every ")))
  }

  method ParseExecutionFrequency(interval: string) returns (result: Interval)
    ensures result == Parse(interval)
  {
    var hours, minutes, seconds: Parsed := Some(0), Some(0), Some(0);
    var intervalElements := Split(Remove(interval, "every "));
    for i := 0 to |intervalElements|
      invariant Interval(hours, minutes, seconds) == TakeAll(intervalElements[..i])
    {
      var value := intervalElements[i];
      assert intervalElements[..i + 1][..i] == intervalElements[..i];
      if 's' in value {
        seconds := ParseInt(Remove(value, "s"));
      }
      if 'm' in value {
        minutes := ParseInt(Remove(value, "m"));
      }
      if 'h' in value {
        hours := ParseInt(Remove(value, "h"));
      }
    }
    assert intervalElements[..|intervalElements|] == intervalElements;
    return Interval(hours, minutes, seconds);
  }

  // ----- Numbers as they are written -----

  function Decimal(n: nat): (s: string)
    ensures s != "" && AllDigits(s)
  {
    if n < 10 then [DigitOf(n)] else Decimal(n / 10) + [DigitOf(n % 10)]
  }

  datatype Sign = Unsigned | Plus | Minus

  // A decimal number: a sign, whole digits, a point and more digits, a power of ten; only one digit must be there.
  datatype Number = Number(sign: Sign, whole: string, fraction: string, power: Option<Power>)

  datatype Power = Power(sign: Sign, size: nat)

  function SignText(sign: Sign): string {
    match sign case Unsigned => "" case Plus => "+" case Minus => "-"
  }

  predicate WellFormed(n: Number) {
    AllDigits(n.whole) && AllDigits(n.fraction) && n.whole + n.fraction != ""
  }

  function Tail(n: Number): string {
    (if n.fraction == "" then "" else "." + n.fraction)
    + (if n.power.None? then "" else "e" + SignText(n.power.value.sign) + Decimal(n.power.value.size))
  }

  function Text(n: Number): string {
    SignText(n.sign) + n.whole + Tail(n)
  }

  function Signed(negative: bool, n: nat): int {
    var i: int := n;
    if negative then -i else i
  }

  function Pow10(k: nat): (p: nat)
    ensures 1 <= p && (1 <= k ==> 10 <= p)
  {
    if k == 0 then 1 else 10 * Pow10(k - 1)
  }

  function Exponent(n: Number): int {
    if n.power.Some? then Signed(n.power.value.sign.Minus?, n.power.value.size) else 0
  }

  /** That `n` is the number `v`, in whole numbers: both sides times the power of ten that clears every fraction. */
  predicate Means(n: Number, v: int)
    requires WellFormed(n)
  {
    var digits := ValueOf(n.whole) * Pow10(|n.fraction|) + ValueOf(n.fraction);
    var signed := Signed(n.sign.Minus?, digits);
    if 0 <= Exponent(n) then signed * Pow10(Exponent(n)) == v * Pow10(|n.fraction|)
    else signed == v * Pow10(|n.fraction|) * Pow10(-Exponent(n))
  }

  // Nothing after the point, and no power of ten unless of 0.
  predicate Plain(n: Number)
    requires WellFormed(n)
  {
    n.whole != "" && ValueOf(n.fraction) == 0 && (Exponent(n) == 0 || ValueOf(n.whole) == 0)
  }

  lemma {:induction false} ValueOfDecimal(n: nat)
    ensures ValueOf(Decimal(n)) == n
  {
    if n >= 10 {
      ValueOfDecimal(n / 10);
      assert Decimal(n)[..|Decimal(n)| - 1] == Decimal(n / 10);
    } else {
      assert [DigitOf(n)][..0] == "";
      assert ValueOf("") == 0;
    }
  }

  lemma {:induction false} ValueBelow(digits: string)
    requires AllDigits(digits)
    ensures ValueOf(digits) < Pow10(|digits|)
  {
    if digits != "" {
      ValueBelow(digits[..|digits| - 1]);
    }
  }

  // A power of ten is what digits move up by, so a number's digits are its whole part's and its fraction's in a row.
  lemma {:induction false} ValueJoins(a: string, b: string)
    requires AllDigits(a) && AllDigits(b)
    ensures AllDigits(a + b) && ValueOf(a + b) == ValueOf(a) * Pow10(|b|) + ValueOf(b)
    decreases |b|
  {
    if b == "" {
      assert a + b == a;
    } else {
      var before, last := b[..|b| - 1], b[|b| - 1];
      assert (a + b)[..|a + b| - 1] == a + before && (a + b)[|a + b| - 1] == last;
      ValueJoins(a, before);
      Scaled(ValueOf(a), Pow10(|b| - 1));
    }
  }

  lemma {:induction false} Scaled(v: nat, p: nat)
    ensures v * p * 10 == v * (10 * p)
  {
  }

  lemma {:induction false} LeadingStops(digits: string, rest: string)
    requires AllDigits(digits) && (rest == "" || !IsDigit(rest[0]))
    ensures Leading(digits + rest) == digits
    decreases |digits|
  {
    if digits == "" {
      assert digits + rest == rest;
    } else {
      assert AllDigits(digits[1..]) && (digits + rest)[1..] == digits[1..] + rest;
      LeadingStops(digits[1..], rest);
    }
  }

  // What parseInt makes of a number: the whole part with its sign, and NaN when there is none.
  function ReadAs(n: Number): Parsed
    requires WellFormed(n)
  {
    if n.whole == "" then None else Some(Signed(n.sign.Minus?, ValueOf(n.whole)))
  }

  lemma {:induction false} ParseSigned(sign: Sign, rest: string)
    requires rest == "" || (rest[0] != '-' && rest[0] != '+')
    ensures var digits := Leading(rest);
            ParseInt(SignText(sign) + rest) == if digits == "" then None else Some(Signed(sign.Minus?, ValueOf(digits)))
  {
    hide Leading, ValueOf, Signed;
    var text := SignText(sign) + rest;
    match sign
    case Unsigned => assert text == rest;
    case Plus => assert text[0] == '+' && text[1..] == rest;
    case Minus => assert text[0] == '-' && text[1..] == rest;
  }

  // What follows the whole part is nothing, or starts with no digit and no sign.
  lemma {:induction false} TailStarts(n: Number)
    ensures var tail := Tail(n); tail == "" || tail[0] == '.' || tail[0] == 'e'
  {
  }

  lemma {:induction false} ParseNumber(n: Number)
    requires WellFormed(n)
    ensures ParseInt(Text(n)) == ReadAs(n)
  {
    hide ParseInt, SignText, Tail, ValueOf, Signed, Leading;
    var rest := n.whole + Tail(n);
    TailStarts(n);
    LeadingStops(n.whole, Tail(n));
    assert n.whole == "" ==> rest == Tail(n);
    assert n.whole != "" ==> rest[0] == n.whole[0];
    ParseSigned(n.sign, rest);
    assert Text(n) == SignText(n.sign) + rest;
  }

  lemma {:induction false} Multiply(a: nat, b: nat, m: nat)
    requires a <= b
    ensures m * a <= m * b
  {
  }

  // w * K + f is w * K once scaled by E, up or down.
  lemma {:induction false} ScaledIff(w: nat, f: nat, k: nat, e: nat)
    requires f < k && 1 <= e
    ensures e == 1 ==> ((w * k + f) * e == w * k <==> f == 0)
    ensures 10 <= e ==> ((w * k + f) * e == w * k <==> f == 0 && w == 0)
    ensures 10 <= e ==> (w * k + f == w * k * e <==> f == 0 && w == 0)
  {
    var p := w * k;
    if 10 <= e {
      Multiply(10, e, p + f);
      Multiply(10, e, p);
      if w > 0 {
        Multiply(1, w, k);
        assert k * w == p;
      }
    }
  }

  /** A number is read as itself exactly when nothing but zeros follows its point and no power of ten scales it. */
  lemma {:induction false} NumberReadIff(n: Number)
    requires WellFormed(n)
    ensures ParseInt(Text(n)).Some? && Means(n, ParseInt(Text(n)).value) <==> Plain(n)
  {
    hide ParseInt, Text, ValueOf, Pow10, Signed;
    ParseNumber(n);
    if n.whole != "" {
      ValueBelow(n.fraction);
      var size := if Exponent(n) < 0 then -Exponent(n) else Exponent(n);
      PowerOfNone();
      ScaledReadIff(n.sign.Minus?, ValueOf(n.whole), ValueOf(n.fraction), Pow10(|n.fraction|), Exponent(n), Pow10(size));
    }
  }

  lemma {:induction false} PowerOfNone()
    ensures Pow10(0) == 1
  {
  }

  lemma {:induction false} ScaledReadIff(negative: bool, w: nat, f: nat, k: nat, exponent: int, power: nat)
    requires f < k && 1 <= power && if exponent == 0 then power == 1 else 10 <= power
    ensures var signed, v := Signed(negative, w * k + f), Signed(negative, w);
            (if 0 <= exponent then signed * power == v * k else signed == v * k * power)
            <==> f == 0 && (exponent == 0 || w == 0)
  {
    hide Signed;
    ScaledIff(w, f, k, power);
    SignsCancel(negative, w * k + f, w, k, power);
  }

  lemma {:induction false} SignsCancel(negative: bool, digits: nat, w: nat, k: nat, e: nat)
    ensures Signed(negative, digits) * e == Signed(negative, w) * k <==> digits * e == w * k
    ensures Signed(negative, digits) == Signed(negative, w) * k * e <==> digits == w * k * e
  {
    if negative {
      Negate(digits, e);
      Negate(w, k);
      Negate(w * k, e);
    }
  }

  lemma {:induction false} Negate(a: int, b: int)
    ensures (0 - a) * b == 0 - a * b
  {
  }

  // ----- Intervals as they are written -----

  datatype Written =
    | S(seconds: Number)
    | M(minutes: Number)
    | H(hours: Number)
    | HM(hours: Number, minutes: Number)
    | HMS(hours: Number, minutes: Number, seconds: Number)

  function Numbers(w: Written): seq<Number> {
    match w
    case S(seconds) => [seconds]
    case M(minutes) => [minutes]
    case H(hours) => [hours]
    case HM(hours, minutes) => [hours, minutes]
    case HMS(hours, minutes, seconds) => [hours, minutes, seconds]
  }

  function Units(w: Written): string {
    match w
    case S(_) => "s"
    case M(_) => "m"
    case H(_) => "h"
    case HM(_, _) => "hm"
    case HMS(_, _, _) => "hms"
  }

  ghost predicate AllWellFormed(w: Written) {
    forall i :: 0 <= i < |Numbers(w)| ==> WellFormed(Numbers(w)[i])
  }

  function Part(n: Number, unit: char): string {
    Text(n) + [unit]
  }

  function Parts(w: Written): (parts: seq<string>)
    ensures |parts| == |Numbers(w)| == |Units(w)|
    ensures forall i :: 0 <= i < |parts| ==> parts[i] == Part(Numbers(w)[i], Units(w)[i])
  {
    match w
    case S(seconds) => [Part(seconds, 's')]
    case M(minutes) => [Part(minutes, 'm')]
    case H(hours) => [Part(hours, 'h')]
    case HM(hours, minutes) => [Part(hours, 'h'), Part(minutes, 'm')]
    case HMS(hours, minutes, seconds) => [Part(hours, 'h'), Part(minutes, 'm'), Part(seconds, 's')]
  }

  function Join(parts: seq<string>): string
    requires parts != []
  {
    if |parts| == 1 then parts[0] else parts[0] + " " + Join(parts[1..])
  }

  function Write(w: Written): string {
    "every " + Join(Parts(w))
  }

  // What is read for a written interval, zero for what it does not name.
  function WrittenAs(w: Written): Interval
    requires AllWellFormed(w)
  {
    match w
    case S(seconds) => assert seconds == Numbers(w)[0]; Interval(Some(0), Some(0), ReadAs(seconds))
    case M(minutes) => assert minutes == Numbers(w)[0]; Interval(Some(0), ReadAs(minutes), Some(0))
    case H(hours) => assert hours == Numbers(w)[0]; Interval(ReadAs(hours), Some(0), Some(0))
    case HM(hours, minutes) =>
      assert hours == Numbers(w)[0] && minutes == Numbers(w)[1];
      Interval(ReadAs(hours), ReadAs(minutes), Some(0))
    case HMS(hours, minutes, seconds) =>
      assert hours == Numbers(w)[0] && minutes == Numbers(w)[1] && seconds == Numbers(w)[2];
      Interval(ReadAs(hours), ReadAs(minutes), ReadAs(seconds))
  }

  // The characters a number is written with.
  predicate NumberChar(c: char) {
    IsDigit(c) || c == '+' || c == '-' || c == '.' || c == 'e'
  }

  ghost predicate NumberText(s: string) {
    forall i :: 0 <= i < |s| ==> NumberChar(s[i])
  }

  predicate IsUnit(c: char) {
    c == 's' || c == 'm' || c == 'h'
  }

  lemma {:induction false} TextChars(n: Number)
    requires WellFormed(n)
    ensures NumberText(Text(n))
  {
    var digits := if n.power.None? then "" else Decimal(n.power.value.size);
    DigitsChars(n.whole);
    DigitsChars(n.fraction);
    DigitsChars(digits);
  }

  lemma {:induction false} DigitsChars(s: string)
    requires AllDigits(s)
    ensures NumberText(s)
  {
  }

  lemma {:induction false} RemoveUnit(text: string, unit: char)
    requires NumberText(text) && IsUnit(unit)
    ensures Remove(text + [unit], [unit]) == text
    decreases |text|
  {
    var s := text + [unit];
    if text == "" {
      assert s == [unit];
    } else {
      assert s[0] == text[0] && NumberChar(text[0]) && !([unit] <= s);
      assert NumberText(text[1..]) && s[1..] == text[1..] + [unit];
      RemoveUnit(text[1..], unit);
    }
  }

  lemma {:induction false} TakePart(interval: Interval, n: Number, unit: char)
    requires WellFormed(n) && IsUnit(unit)
    ensures Take(interval, Part(n, unit))
            == if unit == 's' then interval.(seconds := ReadAs(n))
               else if unit == 'm' then interval.(minutes := ReadAs(n)) else interval.(hours := ReadAs(n))
  {
    hide ParseInt, Remove, Text;
    TextChars(n);
    RemoveUnit(Text(n), unit);
    ParseNumber(n);
    var part := Part(n, unit);
    assert unit in part;
    assert forall c :: c in part <==> c in Text(n) || c == unit;
    assert forall c :: c in Text(n) ==> NumberChar(c);
  }

  ghost predicate Spaceless(s: string) {
    forall i :: 0 <= i < |s| ==> s[i] != ' '
  }

  lemma {:induction false} SpacelessPart(n: Number, unit: char)
    requires WellFormed(n) && IsUnit(unit)
    ensures Spaceless(Part(n, unit))
  {
    hide Text;
    TextChars(n);
  }

  lemma {:induction false} SplitOne(part: string)
    requires Spaceless(part)
    ensures Split(part) == [part]
    decreases |part|
  {
    if part != "" {
      SplitOne(part[1..]);
      assert [part[0]] + part[1..] == part;
    }
  }

  lemma {:induction false} SplitFirst(part: string, rest: string)
    requires Spaceless(part)
    ensures Split(part + " " + rest) == [part] + Split(rest)
    decreases |part|
  {
    var s := part + " " + rest;
    if part == "" {
      assert s[1..] == rest;
    } else {
      assert s[0] == part[0] && s[1..] == part[1..] + " " + rest;
      SplitFirst(part[1..], rest);
      assert [part[0]] + part[1..] == part;
      assert ([part[1..]] + Split(rest))[1..] == Split(rest);
    }
  }

  lemma {:induction false} SplitJoin(parts: seq<string>)
    requires parts != [] && forall i :: 0 <= i < |parts| ==> Spaceless(parts[i])
    ensures Split(Join(parts)) == parts
    decreases |parts|
  {
    if |parts| == 1 {
      SplitOne(parts[0]);
    } else {
      SplitJoin(parts[1..]);
      SplitFirst(parts[0], Join(parts[1..]));
    }
  }

  lemma {:induction false} TakePush(parts: seq<string>, last: string)
    ensures TakeAll(parts + [last]) == Take(TakeAll(parts), last)
  {
    assert (parts + [last])[..|parts|] == parts;
  }

  lemma {:induction false} TakeOne(n: Number, unit: char)
    requires WellFormed(n) && IsUnit(unit)
    ensures TakeAll([Part(n, unit)]) == Take(Interval(Some(0), Some(0), Some(0)), Part(n, unit))
  {
    hide Take, Part;
    assert [Part(n, unit)] == [] + [Part(n, unit)];
    TakePush([], Part(n, unit));
  }

  lemma {:induction false} TakeTwo(h: Number, m: Number)
    requires WellFormed(h) && WellFormed(m)
    ensures TakeAll([Part(h, 'h'), Part(m, 'm')]) == Interval(ReadAs(h), ReadAs(m), Some(0))
  {
    hide Take, Part, ReadAs;
    TakeOne(h, 'h');
    TakePart(Interval(Some(0), Some(0), Some(0)), h, 'h');
    TakePush([Part(h, 'h')], Part(m, 'm'));
    TakePart(Interval(ReadAs(h), Some(0), Some(0)), m, 'm');
    assert [Part(h, 'h'), Part(m, 'm')] == [Part(h, 'h')] + [Part(m, 'm')];
  }

  lemma {:induction false} TakeThree(h: Number, m: Number, s: Number)
    requires WellFormed(h) && WellFormed(m) && WellFormed(s)
    ensures TakeAll([Part(h, 'h'), Part(m, 'm'), Part(s, 's')]) == Interval(ReadAs(h), ReadAs(m), ReadAs(s))
  {
    hide Take, Part, ReadAs;
    TakeTwo(h, m);
    TakePush([Part(h, 'h'), Part(m, 'm')], Part(s, 's'));
    TakePart(Interval(ReadAs(h), ReadAs(m), Some(0)), s, 's');
    assert [Part(h, 'h'), Part(m, 'm'), Part(s, 's')] == [Part(h, 'h'), Part(m, 'm')] + [Part(s, 's')];
  }

  lemma {:induction false} TakeParts(w: Written)
    requires AllWellFormed(w)
    ensures TakeAll(Parts(w)) == WrittenAs(w)
  {
    hide Take, Part, ReadAs, TakeAll;
    var none := Interval(Some(0), Some(0), Some(0));
    assert forall i :: 0 <= i < |Numbers(w)| ==> WellFormed(Numbers(w)[i]);
    assert WellFormed(Numbers(w)[0]);
    match w
    case S(s) => TakeOne(s, 's'); TakePart(none, s, 's');
    case M(m) => TakeOne(m, 'm'); TakePart(none, m, 'm');
    case H(h) => TakeOne(h, 'h'); TakePart(none, h, 'h');
    case HM(h, m) =>
      assert WellFormed(Numbers(w)[1]);
      TakeTwo(h, m);
    case HMS(h, m, s) =>
      assert WellFormed(Numbers(w)[1]) && WellFormed(Numbers(w)[2]);
      TakeThree(h, m, s);
  }

  /** Whatever decimal numbers are written, each is read as its whole part, or as NaN when it has none. */
  lemma {:induction false} ParseWritten(w: Written)
    requires AllWellFormed(w)
    ensures Parse(Write(w)) == WrittenAs(w)
  {
    hide Part, Take, ReadAs;
    var parts := Parts(w);
    var joined := Join(parts);
    assert "every " <= Write(w) && Write(w)[|"every "|..] == joined;
    forall i | 0 <= i < |parts| ensures Spaceless(parts[i]) {
      SpacelessPart(Numbers(w)[i], Units(w)[i]);
    }
    SplitJoin(parts);
    TakeParts(w);
  }

  predicate Is(read: Parsed, n: Number)
    requires WellFormed(n)
  {
    read.Some? && Means(n, read.value)
  }

  // That an interval is the one written: each number what it says, and zero for what is not named.
  ghost predicate Says(w: Written, interval: Interval)
    requires AllWellFormed(w)
  {
    assert |Numbers(w)| >= 1 && WellFormed(Numbers(w)[0]);
    match w
    case S(s) => Is(interval.seconds, s) && interval.minutes == Some(0) && interval.hours == Some(0)
    case M(m) => Is(interval.minutes, m) && interval.hours == Some(0) && interval.seconds == Some(0)
    case H(h) => Is(interval.hours, h) && interval.minutes == Some(0) && interval.seconds == Some(0)
    case HM(h, m) =>
      assert m == Numbers(w)[1];
      Is(interval.hours, h) && Is(interval.minutes, m) && interval.seconds == Some(0)
    case HMS(h, m, s) =>
      assert m == Numbers(w)[1] && s == Numbers(w)[2];
      Is(interval.hours, h) && Is(interval.minutes, m) && Is(interval.seconds, s)
  }

  /**
   An interval is read as it is written exactly when no number in it has anything but zeros after its point, or a power
   of ten that scales it, or no digit before its point.
   */
  lemma {:induction false} ReadIff(w: Written)
    requires AllWellFormed(w)
    ensures Says(w, Parse(Write(w))) <==> forall i :: 0 <= i < |Numbers(w)| ==> Plain(Numbers(w)[i])
  {
    hide Parse, Write, Means, Plain, ReadAs, Text, ParseInt;
    ParseWritten(w);
    forall i | 0 <= i < |Numbers(w)| ensures Is(ReadAs(Numbers(w)[i]), Numbers(w)[i]) <==> Plain(Numbers(w)[i]) {
      NumberReadIff(Numbers(w)[i]);
      ParseNumber(Numbers(w)[i]);
    }
    assert Is(ReadAs(Numbers(w)[0]), Numbers(w)[0]) <==> Plain(Numbers(w)[0]);
    match w
    case S(_) =>
    case M(_) =>
    case H(_) =>
    case HM(_, _) => assert Is(ReadAs(Numbers(w)[1]), Numbers(w)[1]) <==> Plain(Numbers(w)[1]);
    case HMS(_, _, _) =>
      assert Is(ReadAs(Numbers(w)[1]), Numbers(w)[1]) <==> Plain(Numbers(w)[1]);
      assert Is(ReadAs(Numbers(w)[2]), Numbers(w)[2]) <==> Plain(Numbers(w)[2]);
  }

  lemma {:induction false} JoinThree(a: string, b: string, c: string)
    ensures Join([a, b, c]) == a + " " + (b + " " + c)
  {
    assert [a, b, c][1..] == [b, c] && [b, c][1..] == [c];
    assert Join([b, c]) == b + " " + Join([c]);
  }

  lemma {:induction false} Spelled(x: string, y: string, z: string)
    ensures "every " + ((x + "h") + " " + ((y + "m") + " " + (z + "s"))) == "every " + x + "h " + y + "m " + z + "s"
  {
    assert "h " == "h" + " " && "m " == "m" + " ";
    assert (y + "m") + " " + (z + "s") == y + "m " + z + "s";
    var rest := y + "m " + z + "s";
    assert (x + "h") + " " + rest == x + "h " + rest;
    assert x + "h " + rest == x + "h " + y + "m " + z + "s";
  }

  function Natural(n: nat): (r: Number)
    ensures WellFormed(r) && Text(r) == Decimal(n)
  {
    assert Decimal(n) + "" == Decimal(n) && "" + Decimal(n) == Decimal(n);
    Number(Unsigned, Decimal(n), "", None)
  }

  lemma {:induction false} NaturalMeans(n: nat)
    ensures Plain(Natural(n)) && Means(Natural(n), n)
  {
    ValueOfDecimal(n);
    assert ValueOf("") == 0 && Pow10(0) == 1;
  }

  lemma {:induction false} NaturalReads(n: nat)
    ensures ReadAs(Natural(n)) == Some(n)
  {
    ValueOfDecimal(n);
  }

  lemma {:induction false} NaturalsWritten(h: nat, m: nat, s: nat)
    ensures Write(HMS(Natural(h), Natural(m), Natural(s)))
            == "every " + Decimal(h) + "h " + Decimal(m) + "m " + Decimal(s) + "s"
  {
    hide Decimal, Text, Natural, Join;
    JoinThree(Decimal(h) + "h", Decimal(m) + "m", Decimal(s) + "s");
    Spelled(Decimal(h), Decimal(m), Decimal(s));
  }

  /** In particular every interval of natural numbers is read back. */
  lemma {:induction false} NaturalsReadBack(h: nat, m: nat, s: nat)
    ensures Parse("every " + Decimal(h) + "h " + Decimal(m) + "m " + Decimal(s) + "s") == Interval(Some(h), Some(m), Some(s))
  {
    hide Parse, Write, Decimal, Natural, ReadAs;
    ParseWritten(HMS(Natural(h), Natural(m), Natural(s)));
    NaturalsWritten(h, m, s);
    NaturalReads(h);
    NaturalReads(m);
    NaturalReads(s);
  }

  lemma {:induction false} HalfWritten(n: Number)
    requires n == Number(Unsigned, "1", "5", None)
    ensures Write(H(n)) == "every 1.5h"
  {
    assert "." + "5" == ".5" && ".5" + "" == ".5" && "" + "1" == "1" && "1" + ".5" == "1.5";
    assert Part(n, 'h') == "1.5h" && Parts(H(n)) == ["1.5h"];
    assert Join(["1.5h"]) == "1.5h";
  }

  /** An hour and a half is read as one hour. */
  lemma {:induction false} HalfIsLost()
    ensures Parse("every 1.5h") == Interval(Some(1), Some(0), Some(0))
  {
    hide Parse, Write;
    var n := Number(Unsigned, "1", "5", None);
    ParseWritten(H(n));
    HalfWritten(n);
    assert "1"[..0] == "" && ValueOf("1") == 1;
  }
}
