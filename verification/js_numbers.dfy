/**
 * JavaScript numbers as far as the service needs them: integer values in the
 * safe range, and `Number.prototype.toString()` on them, which is the plain
 * decimal numeral (an optional minus sign followed by digits without leading
 * zeros).
 */
module JsNumbers {
  import opened Wrappers

  /** Largest integer a JavaScript number holds exactly (`Number.MAX_SAFE_INTEGER`). */
  const MaxSafeInteger: int := 0x1F_FFFF_FFFF_FFFF

  /** The integer-valued JavaScript numbers that the model covers. */
  type SafeInteger = n: int | -MaxSafeInteger <= n <= MaxSafeInteger

  predicate IsDigit(c: char) {
    '0' <= c <= '9'
  }

  function DigitChar(d: nat): (c: char)
    requires d < 10
    ensures IsDigit(c) && DigitValue(c) == d
  {
    "0123456789"[d]
  }

  function DigitValue(c: char): (d: nat)
    requires IsDigit(c)
    ensures d < 10
  {
    (c as int - '0' as int) as nat
  }

  /** A non-empty run of digits whose first digit is not `0` unless it is the only one. */
  predicate IsCanonicalDigits(s: string) {
    && |s| >= 1
    && (forall i :: 0 <= i < |s| ==> IsDigit(s[i]))
    && (s[0] == '0' ==> |s| == 1)
  }

  /** The shape of the decimal numeral of an integer: no `-0`, no leading zeros. */
  predicate IsDecimalNumeral(s: string) {
    if |s| >= 1 && s[0] == '-' then IsCanonicalDigits(s[1..]) && s[1..] != "0"
    else IsCanonicalDigits(s)
  }

  /** The digits of a natural number, most significant first. */
  function Digits(n: nat): (s: string)
    ensures IsCanonicalDigits(s)
    ensures n == 0 <==> s == "0"
    decreases n
  {
    if n < 10 then [DigitChar(n)] else Digits(n / 10) + [DigitChar(n % 10)]
  }

  /** `n.toString()` for a safe integer `n`. */
  function DecimalString(n: SafeInteger): (s: string)
    ensures IsDecimalNumeral(s)
    ensures n < 0 <==> s[0] == '-'
  {
    if n < 0 then "-" + Digits(-n) else Digits(n)
  }

  /** The value of a run of digits. */
  function DigitsValue(s: string): (n: nat)
    requires forall i :: 0 <= i < |s| ==> IsDigit(s[i])
    decreases |s|
  {
    if s == [] then 0 else DigitsValue(s[..|s| - 1]) * 10 + DigitValue(s[|s| - 1])
  }

  /** Reads back an integer numeral; `None` for anything that is not one. */
  function ParseDecimal(s: string): (r: Option<int>)
    ensures r.Some? ==> IsDecimalNumeral(s)
  {
    if |s| >= 1 && s[0] == '-' then
      if IsCanonicalDigits(s[1..]) && s[1..] != "0" then Some(-(DigitsValue(s[1..]) as int)) else None
    else if IsCanonicalDigits(s) then Some(DigitsValue(s))
    else None
  }

  lemma {:induction false} DigitsRoundTrip(n: nat)
    ensures DigitsValue(Digits(n)) == n
    decreases n
  {
    if n >= 10 {
      var s := Digits(n);
      assert s[..|s| - 1] == Digits(n / 10);
      DigitsRoundTrip(n / 10);
    }
  }

  /** Reading back the decimal string of a number gives that number. */
  lemma {:induction false} DecimalRoundTrip(n: SafeInteger)
    ensures ParseDecimal(DecimalString(n)) == Some(n)
  {
    var s := DecimalString(n);
    if n < 0 {
      assert s[1..] == Digits(-n);
      DigitsRoundTrip(-n);
    } else {
      DigitsRoundTrip(n);
    }
  }

  /** Distinct numbers have distinct decimal strings. */
  lemma DecimalStringInjective(m: SafeInteger, n: SafeInteger)
    ensures DecimalString(m) == DecimalString(n) ==> m == n
  {
    DecimalRoundTrip(m);
    DecimalRoundTrip(n);
  }
}
