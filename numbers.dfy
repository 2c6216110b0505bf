/**
 * The JVM integer behaviour the player relies on, written out explicitly:
 * decimal printing (`Long.toString`, `"%d"`, `"%02d"`), decimal parsing
 * (`String.toLong`), division that truncates toward zero, and the
 * wrap-around of `Long.toInt()`.
 */
module Numbers {
  import opened Wrappers

  const INT_MIN: int := -0x8000_0000
  const INT_MAX: int := 0x7fff_ffff
  const LONG_MIN: int := -0x8000_0000_0000_0000
  const LONG_MAX: int := 0x7fff_ffff_ffff_ffff

  predicate InLongRange(n: int) { LONG_MIN <= n <= LONG_MAX }
  predicate InIntRange(n: int) { INT_MIN <= n <= INT_MAX }

  /** Kotlin `Long.toInt()`: keeps the low 32 bits, read as a signed number. */
  function ToInt32(n: int): (r: int)
    ensures InIntRange(r)
    ensures (n - r) % 0x1_0000_0000 == 0
    ensures InIntRange(n) ==> r == n
  {
    (n - INT_MIN) % 0x1_0000_0000 + INT_MIN
  }

  /** Kotlin/Java `a / b` for a positive divisor: rounds toward zero. */
  function TDiv(a: int, b: int): (q: int)
    requires b > 0
    ensures a >= 0 ==> q == a / b
    ensures a < 0 ==> q == -((-a) / b)
  {
    if a >= 0 then a / b else -((-a) / b)
  }

  /** Kotlin/Java `a % b` for a positive divisor: takes the sign of `a`. */
  function TRem(a: int, b: int): (r: int)
    requires b > 0
    ensures a == TDiv(a, b) * b + r
    ensures a >= 0 ==> 0 <= r < b
    ensures a < 0 ==> -b < r <= 0
  {
    a - TDiv(a, b) * b
  }

  // ---------------------------------------------------------------- digits

  predicate IsDigit(c: char) { '0' <= c <= '9' }

  predicate AllDigits(s: string) { forall i :: 0 <= i < |s| ==> IsDigit(s[i]) }

  function DigitChar(d: nat): (c: char)
    requires d < 10
    ensures IsDigit(c)
  {
    ['0', '1', '2', '3', '4', '5', '6', '7', '8', '9'][d]
  }

  function DigitValue(c: char): nat
    requires IsDigit(c)
  {
    c as int - '0' as int
  }

  lemma DigitCharValue(d: nat)
    requires d < 10
    ensures DigitValue(DigitChar(d)) == d
  {
  }

  /** The decimal digits of `n`, most significant first, without leading zeros. */
  function Digits(n: nat): (s: string)
    ensures |s| > 0 && AllDigits(s)
    ensures n >= 10 ==> |s| >= 2
    decreases n
  {
    if n < 10 then [DigitChar(n)] else Digits(n / 10) + [DigitChar(n % 10)]
  }

  /** The number a string of decimal digits denotes (read left to right). */
  function DigitsValue(s: string): nat
    requires AllDigits(s)
  {
    if s == [] then 0 else DigitsValue(s[..|s| - 1]) * 10 + DigitValue(s[|s| - 1])
  }

  lemma {:induction false} DigitsValueOfDigits(n: nat)
    ensures DigitsValue(Digits(n)) == n
    decreases n
  {
    var s := Digits(n);
    if n < 10 {
      DigitCharValue(n);
      assert s[..0] == [];
    } else {
      DigitsValueOfDigits(n / 10);
      DigitCharValue(n % 10);
      assert s[..|s| - 1] == Digits(n / 10);
    }
  }

  /** `Long.toString()` / `"%d"`: an optional minus sign and the digits. */
  function IntToString(n: int): (s: string)
    ensures |s| > 0
    ensures n >= 0 <==> s[0] != '-'
    ensures n >= 0 ==> AllDigits(s)
  {
    if n < 0 then "-" + Digits(-n) else Digits(n)
  }

  /** `"%02d"`: like `"%d"`, padded with zeros to at least two characters. */
  function Pad2(n: int): (s: string)
    ensures |s| >= 2
    ensures n >= 0 ==> AllDigits(s)
    ensures n >= 10 || n < 0 ==> s == IntToString(n)
  {
    if 0 <= n < 10 then ['0', DigitChar(n)] else IntToString(n)
  }

  lemma Pad2Value(n: nat)
    ensures DigitsValue(Pad2(n)) == n
  {
    if n < 10 {
      var s := Pad2(n);
      DigitCharValue(n);
      assert DigitsValue(['0']) == 0 by { assert ['0'][..0] == []; }
      assert s[..1] == ['0'];
    } else {
      DigitsValueOfDigits(n);
    }
  }

  /** Below 100, `"%02d"` gives exactly two digits. */
  lemma Pad2Small(n: nat)
    requires n < 100
    ensures |Pad2(n)| == 2
  {
    if n >= 10 {
      assert Digits(n) == Digits(n / 10) + [DigitChar(n % 10)];
    }
  }

  /** `"%02d"` of a non-negative number is `"%d"` with a zero in front of a single digit. */
  lemma Pad2AsDigits(n: nat)
    ensures Pad2(n) == (if n < 10 then "0" else "") + Digits(n)
  {
  }

  // ---------------------------------------------------------------- parsing

  /**
   * Kotlin `String.toLong()`: an optional leading `-` or `+` followed by at
   * least one decimal digit, and the value must fit in a Long; anything else
   * throws `NumberFormatException`, written `None` here.
   */
  function ParseLong(s: string): (r: Option<int>)
    ensures r.Some? ==> InLongRange(r.value)
  {
    if |s| == 0 then None
    else
      var negative := s[0] == '-';
      var body := if s[0] == '-' || s[0] == '+' then s[1..] else s;
      if |body| == 0 || !AllDigits(body) then None
      else
        var d: int := DigitsValue(body);
        var v := if negative then -d else d;
        if InLongRange(v) then Some(v) else None
  }

  lemma ParseLongOfIntToString(n: int)
    requires InLongRange(n)
    ensures ParseLong(IntToString(n)) == Some(n)
  {
    if n < 0 {
      ParseLongOfNegativeInt(n);
    } else {
      DigitsValueOfDigits(n);
      ParseLongOfDigits(Digits(n));
    }
  }

  lemma ParseLongOfNegativeInt(n: int)
    requires LONG_MIN <= n < 0
    ensures ParseLong(IntToString(n)) == Some(n)
  {
    var m: nat := -n;
    NegativeToString(n);
    DigitsValueOfDigits(m);
    ParseLongOfNegative(Digits(m));
  }

  lemma NegativeToString(n: int)
    requires n < 0
    ensures IntToString(n) == "-" + Digits(-n)
  {
  }

  lemma ParseLongOfDigits(body: string)
    requires |body| > 0 && AllDigits(body) && InLongRange(DigitsValue(body))
    ensures ParseLong(body) == Some(DigitsValue(body))
  {
    assert IsDigit(body[0]);
  }

  lemma ParseLongOfNegative(body: string)
    requires |body| > 0 && AllDigits(body) && DigitsValue(body) <= -LONG_MIN
    ensures ParseLong("-" + body) == Some(-(DigitsValue(body) as int))
  {
    assert ("-" + body)[1..] == body;
  }

  /** Splits a string at its first `:`; `None` when it has none. */
  function SplitAtColon(s: string): (r: Option<(string, string)>)
    ensures r.Some? ==> s == r.value.0 + ":" + r.value.1 && ':' !in r.value.0
    ensures r.None? ==> ':' !in s
  {
    if s == [] then None
    else if s[0] == ':' then Some(([], s[1..]))
    else match SplitAtColon(s[1..])
      case None => None
      case Some(p) => Some(([s[0]] + p.0, p.1))
  }

  lemma {:induction false} SplitAtColonOf(a: string, b: string)
    requires ':' !in a
    ensures SplitAtColon(a + ":" + b) == Some((a, b))
    decreases |a|
  {
    var s := a + ":" + b;
    if a == [] {
      assert s == [':'] + b;
    } else {
      assert s[0] == a[0] && a[0] != ':';
      assert s[1..] == a[1..] + ":" + b;
      assert ':' !in a[1..];
      SplitAtColonOf(a[1..], b);
      assert [a[0]] + a[1..] == a;
    }
  }

  /**
   * Reads a clock face `m:ss` / `mm:ss` back into a number of seconds:
   * the inverse the two duration formatters are proved against.
   */
  function ParseClock(s: string): (r: Option<int>)
    ensures r.Some? ==> r.value >= 0
  {
    match SplitAtColon(s)
    case None => None
    case Some(p) => ClockFields(p.0, p.1)
  }

  /** Two non-empty digit fields, minutes and seconds, as a number of seconds. */
  function ClockFields(minutes: string, seconds: string): (r: Option<int>)
    ensures r.Some? ==> r.value >= 0
  {
    if |minutes| > 0 && |seconds| > 0 && AllDigits(minutes) && AllDigits(seconds)
    then Some(DigitsValue(minutes) * 60 + DigitsValue(seconds))
    else None
  }

  lemma ParseClockOf(a: string, b: string)
    requires |a| > 0 && |b| > 0 && AllDigits(a) && AllDigits(b)
    ensures ParseClock(a + ":" + b) == Some(DigitsValue(a) * 60 + DigitsValue(b))
  {
    NoColonInDigits(a);
    SplitAtColonOf(a, b);
    ParseClockOfSplit(a + ":" + b, a, b);
  }

  /** `"%d:%02d"` of minutes and seconds reads back as the total seconds. */
  lemma ReadBackClock(minutes: nat, seconds: nat)
    requires seconds < 60
    ensures ParseClock(Digits(minutes) + ":" + Pad2(seconds)) == Some(minutes * 60 + seconds)
  {
    DigitsValueOfDigits(minutes);
    Pad2Value(seconds);
    ParseClockOf(Digits(minutes), Pad2(seconds));
  }

  /** `"%02d:%02d"` of minutes and seconds reads back as the total seconds. */
  lemma ReadBackPaddedClock(minutes: nat, seconds: nat)
    requires seconds < 60
    ensures ParseClock(Pad2(minutes) + ":" + Pad2(seconds)) == Some(minutes * 60 + seconds)
  {
    Pad2Value(minutes);
    Pad2Value(seconds);
    ParseClockOf(Pad2(minutes), Pad2(seconds));
  }

  lemma ParseClockOfSplit(s: string, a: string, b: string)
    requires SplitAtColon(s) == Some((a, b))
    ensures ParseClock(s) == ClockFields(a, b)
  {
  }

  lemma NoColonInDigits(a: string)
    requires AllDigits(a)
    ensures ':' !in a
  {
  }

}
