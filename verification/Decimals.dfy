/** Numbers as label values: the decimal text of formatInt, read back digit by digit. */
module Decimals {
  import opened Api

  predicate AllDigits(s: string) { forall i :: 0 <= i < |s| ==> '0' <= s[i] <= '9' }

  /** What a string of digits is worth. */
  function Worth(s: string): nat
    requires AllDigits(s)
  {
    if s == "" then 0 else 10 * Worth(s[..|s| - 1]) + (s[|s| - 1] as int - '0' as int)
  }

  /** Digits without a leading zero. */
  predicate Plain(s: string, n: nat) {
    s != "" && AllDigits(s) && Worth(s) == n && (s[0] == '0' ==> s == "0")
  }

  /** Digits writes every number, without leading zeros. */
  lemma {:induction false} DigitsExact(n: nat)
    ensures Plain(Digits(n), n)
    decreases n
  {
    if n < 10 {
      OneDigit(n);
    } else {
      DigitsExact(n / 10);
      OneDigit(n % 10);
      var s := Digits(n);
      assert s[..|s| - 1] == Digits(n / 10);
      assert s[|s| - 1] == Digits(n % 10)[0];
      assert Digits(n / 10) != "0";
    }
  }

  lemma OneDigit(d: nat)
    requires d < 10
    ensures |Digits(d)| == 1 && Digits(d)[0] as int == '0' as int + d
    ensures AllDigits(Digits(d)) && Worth(Digits(d)) == d
  {
    assert Digits(d)[..0] == "";
  }

  /** What a label value written by formatInt says. */
  predicate Reads(s: string, n: int) {
    if n < 0 then s != "" && s[0] == '-' && Plain(s[1..], -n) else Plain(s, n)
  }

  lemma MinusSign(s: string)
    ensures ("-" + s)[0] == '-' && ("-" + s)[1..] == s
  {
  }

  lemma TowardsZero(v: real)
    ensures v >= 0.0 ==> Truncate(v) as real <= v < Truncate(v) as real + 1.0
    ensures v < 0.0 ==> Truncate(v) as real - 1.0 < v <= Truncate(v) as real && Truncate(v) <= 0
  {
  }

  /** A number is written in the one usual way, after its fraction is dropped: towards
      zero, also below zero. */
  lemma FormatIntExact(v: real) returns (n: int)
    ensures Reads(FormatInt(v), n)
    ensures v >= 0.0 ==> n as real <= v < n as real + 1.0
    ensures v < 0.0 ==> n as real - 1.0 < v <= n as real && n <= 0
  {
    n := Truncate(v);
    TowardsZero(v);
    if n < 0 {
      DigitsExact(-n);
      MinusSign(Digits(-n));
    } else {
      DigitsExact(n);
    }
  }
}
