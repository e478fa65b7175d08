/** Verification codes: the integer drawn at signup and the decimal string that
    Python's str() turns it into.  The signup handler draws a number in
    [MinCode, MaxCode] and stores its decimal text in the cache for CodeTtl
    seconds; this module proves that such text is exactly five digits with no
    leading zero, and that the text determines the number. */
module Codes {

  /** Bounds of the draw, both inclusive, and the cache expiry in seconds. */
  const MinCode: int := 10000
  const MaxCode: int := 99999
  const CodeTtl: nat := 600

  /** A number the signup draw can produce. */
  type CodeDraw = n: int | MinCode <= n <= MaxCode witness MinCode

  predicate IsDigit(c: char) {
    '0' <= c <= '9'
  }

  predicate IsDigits(s: string) {
    forall i :: 0 <= i < |s| ==> IsDigit(s[i])
  }

  /** The text the cache holds for a code: five decimal digits, the first not zero. */
  predicate IsVerificationCode(s: string) {
    |s| == 5 && IsDigits(s) && s[0] != '0'
  }

  function Pow10(k: nat): (p: nat)
    ensures p >= 1
  {
    if k == 0 then 1 else 10 * Pow10(k - 1)
  }

  function Digit(d: nat): (c: char)
    requires d < 10
    ensures IsDigit(c)
    ensures (c == '0') == (d == 0)
  {
    (48 + d) as char
  }

  function DigitValue(c: char): (d: nat)
    requires IsDigit(c)
    ensures d < 10 && Digit(d) == c
  {
    c as int - 48
  }

  /** Decimal text of a natural number, as Python's str() writes it:
      no sign, no leading zero, "0" for zero. */
  function DecimalString(n: nat): (s: string)
    ensures |s| >= 1 && IsDigits(s)
    ensures s[0] == '0' <==> n == 0
  {
    if n < 10 then [Digit(n)] else DecimalString(n / 10) + [Digit(n % 10)]
  }

  /** The value of a string of decimal digits (the reference inverse of DecimalString). */
  function ParseDecimal(s: string): (n: nat)
    requires IsDigits(s)
  {
    if s == [] then 0 else 10 * ParseDecimal(s[..|s| - 1]) + DigitValue(s[|s| - 1])
  }

  /** Reading back the text of a number gives that number. */
  lemma {:induction false} ParseDecimalString(n: nat)
    ensures ParseDecimal(DecimalString(n)) == n
  {
    var s := DecimalString(n);
    if n >= 10 {
      ParseDecimalString(n / 10);
      assert s[..|s| - 1] == DecimalString(n / 10);
    }
  }

  /** Different numbers have different texts. */
  lemma DecimalStringInjective(m: nat, n: nat)
    requires DecimalString(m) == DecimalString(n)
    ensures m == n
  {
    ParseDecimalString(m);
    ParseDecimalString(n);
  }

  /** A string of k digits is worth less than 10^k. */
  lemma {:induction false} ParseDecimalBelow(s: string)
    requires IsDigits(s)
    ensures ParseDecimal(s) < Pow10(|s|)
  {
    if s != [] {
      var t := s[..|s| - 1];
      ParseDecimalBelow(t);
      assert ParseDecimal(t) <= Pow10(|t|) - 1;
    }
  }

  /** A string of k digits whose first digit is not zero is worth at least 10^(k-1). */
  lemma {:induction false} ParseDecimalAtLeast(s: string)
    requires IsDigits(s) && |s| >= 1 && s[0] != '0'
    ensures ParseDecimal(s) >= Pow10(|s| - 1)
  {
    if |s| > 1 {
      var t := s[..|s| - 1];
      assert t[0] == s[0];
      ParseDecimalAtLeast(t);
    }
  }

  /** A digit string without a leading zero (or the single digit "0") is the text
      of its own value: DecimalString is onto the canonical digit strings. */
  lemma {:induction false} DecimalStringOfParse(s: string)
    requires IsDigits(s) && |s| >= 1 && (s[0] != '0' || |s| == 1)
    ensures DecimalString(ParseDecimal(s)) == s
  {
    var t := s[..|s| - 1];
    var d := DigitValue(s[|s| - 1]);
    if |s| == 1 {
      assert s == [s[0]];
    } else {
      assert t[0] == s[0];
      ParseDecimalAtLeast(t);
      DecimalStringOfParse(t);
      var n := ParseDecimal(s);
      assert n == 10 * ParseDecimal(t) + d;
      assert n / 10 == ParseDecimal(t) && n % 10 == d;
      assert s == t + [s[|s| - 1]];
    }
  }

  lemma {:induction false} Pow10Monotone(i: nat, j: nat)
    requires i <= j
    ensures Pow10(i) <= Pow10(j)
  {
    if i < j {
      Pow10Monotone(i, j - 1);
    }
  }

  /** Every number the signup draw can produce is stored as a five-digit code
      with no leading zero. */
  lemma DrawIsVerificationCode(n: CodeDraw)
    ensures IsVerificationCode(DecimalString(n))
  {
    var s := DecimalString(n);
    ParseDecimalString(n);
    ParseDecimalBelow(s);
    ParseDecimalAtLeast(s);
    if |s| < 5 {
      Pow10Monotone(|s|, 4);
    }
    if |s| > 5 {
      Pow10Monotone(5, |s| - 1);
    }
  }

  /** Conversely, every five-digit code with no leading zero is the text of
      exactly one number the draw can produce. */
  lemma VerificationCodeIsDrawn(s: string)
    requires IsVerificationCode(s)
    ensures MinCode <= ParseDecimal(s) <= MaxCode
    ensures DecimalString(ParseDecimal(s)) == s
  {
    ParseDecimalBelow(s);
    ParseDecimalAtLeast(s);
    DecimalStringOfParse(s);
  }
}
