/** Python's decimal rendering of integers, as used inside f-strings:
    `f"{n}"` (that is `str(n)`) and the zero-padded `f"{n:04d}"`. */
module PyFormat {

  predicate IsDigit(c: char) {
    '0' <= c <= '9'
  }

  function DigitChar(d: nat): (c: char)
    requires d < 10
    ensures IsDigit(c)
  {
    ('0' as int + d) as char
  }

  function DigitValue(c: char): (d: nat)
    requires IsDigit(c)
    ensures d < 10
  {
    c as int - '0' as int
  }

  /** The decimal digits of `n`, most significant first, with no leading zero. */
  function NatDigits(n: nat): (s: string)
    ensures |s| >= 1
    ensures forall k :: 0 <= k < |s| ==> IsDigit(s[k])
    ensures |s| > 1 ==> s[0] != '0'
    decreases n
  {
    if n < 10 then [DigitChar(n)] else NatDigits(n / 10) + [DigitChar(n % 10)]
  }

  /** The value of a string of decimal digits (`int(s)` on ASCII digits). */
  function ParseDigits(s: string): nat
    requires forall k :: 0 <= k < |s| ==> IsDigit(s[k])
    decreases |s|
  {
    if |s| == 0 then 0 else ParseDigits(s[..|s| - 1]) * 10 + DigitValue(s[|s| - 1])
  }

  /** Reading back the digits of `n` gives `n`. */
  lemma {:induction false} ParseNatDigits(n: nat)
    ensures ParseDigits(NatDigits(n)) == n
    decreases n
  {
    if n >= 10 {
      var s := NatDigits(n);
      assert s[..|s| - 1] == NatDigits(n / 10);
      ParseNatDigits(n / 10);
    }
  }

  /** A string of `p` digits reads as a value below `10^p`. */
  lemma {:induction false} ParseDigitsBound(s: string)
    requires forall k :: 0 <= k < |s| ==> IsDigit(s[k])
    ensures ParseDigits(s) < Pow10(|s|)
    decreases |s|
  {
    if |s| > 0 {
      ParseDigitsBound(s[..|s| - 1]);
    }
  }

  /** `str(i)` for an int: a minus sign before the digits of a negative value. */
  function IntToString(i: int): string {
    if i < 0 then "-" + NatDigits(-i) else NatDigits(i)
  }

  function Zeros(k: nat): (s: string)
    ensures |s| == k && forall j :: 0 <= j < k ==> s[j] == '0'
  {
    seq(k, j => '0')
  }

  /** `f"{n:04d}"` for a non-negative `n`: its digits, left-padded with zeros to
      at least four characters; wider numbers are not truncated. */
  function ZeroPad4(n: nat): (s: string)
    ensures forall k :: 0 <= k < |s| ==> IsDigit(s[k])
    ensures |s| == if n < 10000 then 4 else |NatDigits(n)|
  {
    var d := NatDigits(n);
    NatDigitsWidth(n, 4);
    (if |d| < 4 then Zeros(4 - |d|) else "") + d
  }

  function Pow10(p: nat): (r: nat)
    ensures r >= 1
  {
    if p == 0 then 1 else 10 * Pow10(p - 1)
  }

  /** `n` has at most `p` digits exactly when it is below `10^p`. */
  lemma {:induction false} NatDigitsWidth(n: nat, p: nat)
    requires p >= 1
    ensures |NatDigits(n)| <= p <==> n < Pow10(p)
    decreases n
  {
    if n >= 10 && p > 1 {
      NatDigitsWidth(n / 10, p - 1);
    } else if n < 10 && p > 1 {
      assert Pow10(p) == 10 * Pow10(p - 1);
    }
  }

  /** Leading zeros do not change the value read back. */
  lemma {:induction false} ParseLeadingZeros(k: nat, s: string)
    requires forall j :: 0 <= j < |s| ==> IsDigit(s[j])
    ensures ParseDigits(Zeros(k) + s) == ParseDigits(s)
    decreases |s|
  {
    var z := Zeros(k) + s;
    if |s| == 0 {
      assert z == Zeros(k);
      AllZerosParse(k);
    } else {
      assert z[..|z| - 1] == Zeros(k) + s[..|s| - 1];
      ParseLeadingZeros(k, s[..|s| - 1]);
    }
  }

  lemma {:induction false} AllZerosParse(k: nat)
    ensures ParseDigits(Zeros(k)) == 0
    decreases k
  {
    if k > 0 {
      assert Zeros(k)[..k - 1] == Zeros(k - 1);
      AllZerosParse(k - 1);
    }
  }

  /** `f"{n:04d}"` reads back as `n`, so distinct indices give distinct
      padded strings. */
  lemma ParseZeroPad4(n: nat)
    ensures ParseDigits(ZeroPad4(n)) == n
  {
    var d := NatDigits(n);
    ParseNatDigits(n);
    if |d| < 4 {
      ParseLeadingZeros(4 - |d|, d);
    } else {
      assert ZeroPad4(n) == d;
    }
  }

  lemma ZeroPad4Injective(m: nat, n: nat)
    ensures ZeroPad4(m) == ZeroPad4(n) ==> m == n
  {
    ParseZeroPad4(m);
    ParseZeroPad4(n);
  }
}
