/**
 * ASCII decimal text of integers, as Java's String.valueOf(int) writes it (the "%d" format writes
 * the same only in locales whose digits are ASCII), and the inverse reading of such text. The snapshot value and the prescription sequence number are both
 * decimal text of an integer.
 */
module Decimal {
  import opened Outcomes

  predicate IsDigit(ch: char) {
    '0' <= ch <= '9'
  }

  predicate AllDigits(s: string) {
    forall i :: 0 <= i < |s| ==> IsDigit(s[i])
  }

  function DigitValue(ch: char): nat
    requires IsDigit(ch)
  {
    (ch as int) - ('0' as int)
  }

  function DigitChar(d: nat): (ch: char)
    requires d < 10
    ensures IsDigit(ch) && DigitValue(ch) == d
  {
    (('0' as int) + d) as char
  }

  function Pow10(k: nat): (p: nat)
    ensures p >= 1
  {
    if k == 0 then 1 else 10 * Pow10(k - 1)
  }

  /** The shortest decimal text of a natural number: no sign, no leading zero. */
  function NatString(n: nat): (s: string)
    ensures |s| > 0 && AllDigits(s)
    ensures n >= 10 ==> s[0] != '0'
  {
    if n < 10 then [DigitChar(n)] else NatString(n / 10) + [DigitChar(n % 10)]
  }

  /** String.valueOf(n): a minus sign for negative numbers, then the digits. */
  function DecimalString(n: int): (s: string)
    ensures |s| > 0
    ensures n >= 0 <==> IsDigit(s[0])
  {
    if n < 0 then "-" + NatString(-n) else NatString(n)
  }

  /** The number a string of digits denotes; leading zeros are allowed. */
  function ParseNat(s: string): nat
    requires AllDigits(s)
  {
    if s == [] then 0 else ParseNat(s[..|s| - 1]) * 10 + DigitValue(s[|s| - 1])
  }

  /** Reads decimal text with an optional leading minus sign; anything else is not a number. */
  function ParseInt(s: string): Option<int> {
    if |s| > 1 && s[0] == '-' && AllDigits(s[1..]) then Some(-(ParseNat(s[1..]) as int))
    else if |s| > 0 && AllDigits(s) then Some(ParseNat(s))
    else None
  }

  /** A string of k zeros. */
  function Zeros(k: nat): (s: string)
    ensures |s| == k && forall i :: 0 <= i < k ==> s[i] == '0'
  {
    if k == 0 then "" else Zeros(k - 1) + "0"
  }

  lemma {:induction false} NatStringRoundTrip(n: nat)
    ensures ParseNat(NatString(n)) == n
  {
    if n >= 10 {
      NatStringRoundTrip(n / 10);
      var s := NatString(n);
      assert s[..|s| - 1] == NatString(n / 10);
    } else {
      assert NatString(n)[..0] == "";
    }
  }

  /** The text of an integer reads back as that integer: text-valued counters lose nothing. */
  lemma DecimalRoundTrip(n: int)
    ensures ParseInt(DecimalString(n)) == Some(n)
  {
    if n < 0 {
      var s := DecimalString(n);
      assert s[1..] == NatString(-n);
      NatStringRoundTrip(-n);
    } else {
      NatStringRoundTrip(n);
    }
  }

  lemma {:induction false} PrependZero(s: string)
    requires AllDigits(s)
    ensures AllDigits("0" + s) && ParseNat("0" + s) == ParseNat(s)
  {
    var t := "0" + s;
    if s == [] {
      assert t[..0] == "";
    } else {
      assert t[..|t| - 1] == "0" + s[..|s| - 1];
      PrependZero(s[..|s| - 1]);
    }
  }

  /** Leading zeros do not change the number a digit string denotes. */
  lemma {:induction false} LeadingZeros(k: nat, s: string)
    requires AllDigits(s)
    ensures AllDigits(Zeros(k) + s) && ParseNat(Zeros(k) + s) == ParseNat(s)
  {
    if k > 0 {
      assert Zeros(k) + s == Zeros(k - 1) + ("0" + s);
      PrependZero(s);
      LeadingZeros(k - 1, "0" + s);
    } else {
      assert Zeros(k) + s == s;
    }
  }

  /** A number has at most k digits (k >= 1) exactly when it is below 10^k. */
  lemma {:induction false} NatStringLength(n: nat, k: nat)
    requires k >= 1
    ensures |NatString(n)| <= k <==> n < Pow10(k)
  {
    if n >= 10 {
      if k == 1 {
        assert |NatString(n)| == |NatString(n / 10)| + 1;
      } else {
        NatStringLength(n / 10, k - 1);
        assert n / 10 < Pow10(k - 1) <==> n < 10 * Pow10(k - 1);
      }
    } else {
      assert Pow10(k) == 10 * Pow10(k - 1);
    }
  }

  /** The next number never has fewer digits. */
  lemma NatStringLengthMonotone(n: nat)
    ensures |NatString(n)| <= |NatString(n + 1)|
  {
    NatStringLength(n + 1, |NatString(n + 1)|);
    NatStringLength(n, |NatString(n + 1)|);
  }
}
