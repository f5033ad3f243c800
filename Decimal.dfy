/** Decimal text of integers as the Java library produces and reads it:
    `String.valueOf(long)` and `Integer.parseInt(String)` / `Integer.valueOf(String)`. */
module Decimal {
  import opened Wrappers

  const INT_MIN: int := -0x8000_0000
  const INT_MAX: int := 0x7FFF_FFFF

  predicate IsInt32(n: int) { INT_MIN <= n <= INT_MAX }

  predicate IsDigit(c: char) { '0' <= c <= '9' }

  predicate AllDigits(s: string) { forall i :: 0 <= i < |s| ==> IsDigit(s[i]) }

  function DigitChar(d: int): (c: char)
    requires 0 <= d < 10
    ensures IsDigit(c) && c as int - '0' as int == d
  {
    ('0' as int + d) as char
  }

  /** The value of a string of ASCII digits, read left to right (leading zeros allowed). */
  function DigitsValue(s: string): (v: nat)
    requires AllDigits(s)
  {
    if s == [] then 0 else 10 * DigitsValue(s[..|s| - 1]) + (s[|s| - 1] as int - '0' as int)
  }

  /** The shortest decimal text of a natural number. */
  function Digits(n: nat): (s: string)
    ensures s != [] && AllDigits(s)
    ensures n < 10 <==> |s| == 1
    ensures s[0] == '0' <==> n == 0
  {
    if n < 10 then [DigitChar(n)] else Digits(n / 10) + [DigitChar(n % 10)]
  }

  /** `String.valueOf(long)`: a minus sign for negative values, then the digits. */
  function ValueOf(n: int): (s: string)
  {
    if n < 0 then "-" + Digits(-n) else Digits(n)
  }

  /** What `String.valueOf` writes: a minus sign exactly for negative values, then the
      shortest decimal digits of the magnitude (no leading zero except for 0 itself). */
  lemma ValueOfShape(n: int)
    ensures ValueOf(n) != [] && (ValueOf(n)[0] == '-' <==> n < 0)
    ensures var digits := if n < 0 then ValueOf(n)[1..] else ValueOf(n);
      && digits != [] && AllDigits(digits)
      && DigitsValue(digits) == (if n < 0 then -n else n)
      && (digits[0] == '0' ==> digits == "0")
  {
    DigitsRoundTrip(if n < 0 then -n else n);
  }

  function Pow10(k: nat): (p: nat)
    ensures p >= 1
  {
    if k == 0 then 1 else 10 * Pow10(k - 1)
  }

  /** The text after an optional leading sign. */
  function Unsigned(s: string): (body: string)
    ensures |body| == if |s| > 0 && (s[0] == '-' || s[0] == '+') then |s| - 1 else |s|
  {
    if |s| > 0 && (s[0] == '-' || s[0] == '+') then s[1..] else s
  }

  /** `Integer.parseInt`: an optional sign, at least one ASCII digit and nothing else,
      and a value that fits in 32 bits; anything else is a NumberFormatException (None). */
  function ParseInt(s: string): (r: Option<int>)
    ensures r.Some? ==> IsInt32(r.value) && Unsigned(s) != [] && AllDigits(Unsigned(s))
    ensures r.Some? ==> DigitsValue(Unsigned(s)) == (if r.value < 0 then -r.value else r.value)
    ensures r.Some? && r.value < 0 ==> s[0] == '-'
    ensures r.Some? && s[0] == '-' ==> r.value <= 0
    ensures Unsigned(s) != [] && AllDigits(Unsigned(s)) && DigitsValue(Unsigned(s)) <= INT_MAX ==> r.Some?
  {
    var negative := |s| > 0 && s[0] == '-';
    var body := Unsigned(s);
    if body == [] || !AllDigits(body) then None
    else
      var magnitude: int := DigitsValue(body);
      var v := if negative then -magnitude else magnitude;
      if IsInt32(v) then Some(v) else None
  }

  /** Reading back the digits of n gives n. */
  lemma {:induction false} DigitsRoundTrip(n: nat)
    ensures DigitsValue(Digits(n)) == n
  {
    if n >= 10 {
      var s := Digits(n);
      DigitsRoundTrip(n / 10);
      assert s[..|s| - 1] == Digits(n / 10);
    }
  }

  /** The decimal text of n has at most k characters exactly when n < 10^k. */
  lemma {:induction false} DigitsLength(n: nat, k: nat)
    requires k >= 1
    ensures |Digits(n)| <= k <==> n < Pow10(k)
  {
    if k == 1 {
      assert Pow10(1) == 10;
    } else {
      Pow10Monotone(k);
      if n >= 10 {
        DigitsLength(n / 10, k - 1);
      }
    }
  }

  lemma Pow10Monotone(k: nat)
    requires k >= 1
    ensures Pow10(k) >= 10
  {
    if k > 1 { Pow10Monotone(k - 1); }
  }

  /** Leading zeros do not change the value of a digit string. */
  lemma {:induction false} LeadingZeros(z: string, d: string)
    requires forall i :: 0 <= i < |z| ==> z[i] == '0'
    requires AllDigits(d)
    ensures AllDigits(z + d) && DigitsValue(z + d) == DigitsValue(d)
  {
    if d == [] {
      assert z + d == z;
      ZerosValue(z);
    } else {
      var d' := d[..|d| - 1];
      LeadingZeros(z, d');
      assert (z + d)[..|z + d| - 1] == z + d';
    }
  }

  lemma {:induction false} ZerosValue(z: string)
    requires forall i :: 0 <= i < |z| ==> z[i] == '0'
    ensures AllDigits(z) && DigitsValue(z) == 0
  {
    if z != [] {
      ZerosValue(z[..|z| - 1]);
    }
  }

  /** `Integer.parseInt(String.valueOf(n)) == n` for every 32-bit n. */
  lemma ParseValueOf(n: int)
    requires IsInt32(n)
    ensures ParseInt(ValueOf(n)) == Some(n)
  {
    var m := if n < 0 then -n else n;
    DigitsRoundTrip(m);
    if n < 0 {
      assert ValueOf(n)[1..] == Digits(m);
    }
  }
}
