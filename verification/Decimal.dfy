/** Decimal numerals: how counts are printed and how unsigned 64-bit numbers are read back. */
module Decimal {
  import opened Types

  const U64_LIMIT: nat := 0x1_0000_0000_0000_0000

  function Digit(d: nat): char
    requires d < 10
  {
    "0123456789"[d]
  }

  function ToDecimal(n: nat): (s: string)
    ensures s != ""
  {
    if n < 10 then [Digit(n)] else ToDecimal(n / 10) + [Digit(n % 10)]
  }

  function DigitValue(c: char): (r: Option<nat>)
    ensures r.Some? ==> r.value < 10
  {
    if '0' <= c <= '9' then Some(c as int - '0' as int) else None
  }

  /** Digits only, nothing above the limit at any point of the accumulation. */
  function ParseDigits(s: string): Option<nat> {
    if s == "" then Some(0)
    else
      match (ParseDigits(s[..|s| - 1]), DigitValue(s[|s| - 1]))
      case (Some(high), Some(d)) => if high * 10 + d < U64_LIMIT then Some(high * 10 + d) else None
      case _ => None
  }

  /** `u64::from_str`: an optional plus sign, then at least one digit. */
  function ParseU64(s: string): Option<nat> {
    var digits := if s != "" && s[0] == '+' then s[1..] else s;
    if digits == "" then None else ParseDigits(digits)
  }

  predicate AllDigits(s: string) {
    forall i :: 0 <= i < |s| ==> '0' <= s[i] <= '9'
  }

  lemma {:induction false} DecimalDigits(n: nat)
    ensures AllDigits(ToDecimal(n))
  {
    if n >= 10 {
      DecimalDigits(n / 10);
    }
  }

  /** Different numbers are printed differently. */
  lemma {:induction false} DecimalInjective(n: nat, m: nat)
    requires ToDecimal(n) == ToDecimal(m)
    ensures n == m
  {
    var s := ToDecimal(n);
    assert s[|s| - 1] == Digit(n % 10) && s[|s| - 1] == Digit(m % 10);
    if n >= 10 && m >= 10 {
      assert s[..|s| - 1] == ToDecimal(n / 10) && s[..|s| - 1] == ToDecimal(m / 10);
      DecimalInjective(n / 10, m / 10);
    }
  }

  lemma ParseDigitsStep(high: string, d: nat)
    requires d < 10
    ensures ParseDigits(high + [Digit(d)])
            == match ParseDigits(high)
               case None => None
               case Some(h) => if h * 10 + d < U64_LIMIT then Some(h * 10 + d) else None
  {
    var s := high + [Digit(d)];
    assert s[..|s| - 1] == high;
    assert DigitValue(s[|s| - 1]) == Some(d);
  }

  lemma {:induction false} ParseDigitsOfDecimal(n: nat)
    ensures ParseDigits(ToDecimal(n)) == if n < U64_LIMIT then Some(n) else None
  {
    if n < 10 {
      assert ToDecimal(n) == "" + [Digit(n)];
      ParseDigitsStep("", n);
    } else {
      ParseDigitsOfDecimal(n / 10);
      ParseDigitsStep(ToDecimal(n / 10), n % 10);
      assert n == n / 10 * 10 + n % 10;
    }
  }

  /** Printing and parsing are inverse exactly on the 64-bit numbers. */
  lemma ParseU64OfDecimal(n: nat)
    ensures ParseU64(ToDecimal(n)) == if n < U64_LIMIT then Some(n) else None
  {
    DecimalDigits(n);
    ParseDigitsOfDecimal(n);
  }

  function Zeros(k: nat): string {
    seq(k, _ => '0')
  }

  lemma {:induction false} LeadingZeros(k: nat, s: string)
    ensures ParseDigits(Zeros(k) + s) == ParseDigits(s)
    decreases |s|, k
  {
    var t := Zeros(k) + s;
    if s != "" {
      assert t[..|t| - 1] == Zeros(k) + s[..|s| - 1];
      LeadingZeros(k, s[..|s| - 1]);
    } else if k > 0 {
      assert t[..|t| - 1] == Zeros(k - 1) + s;
      LeadingZeros(k - 1, s);
    }
  }

  /** One more digit after zeros and a numeral. */
  lemma OneMoreDigit(k: nat, high: nat, d: nat) returns (zeros: nat)
    requires d < 10
    ensures Zeros(k) + ToDecimal(high) + [Digit(d)] == Zeros(zeros) + ToDecimal(high * 10 + d)
  {
    if high == 0 {
      zeros := k + 1;
      assert Zeros(k) + "0" == Zeros(k + 1);
    } else {
      zeros := k;
      assert (high * 10 + d) / 10 == high && (high * 10 + d) % 10 == d;
      assert Zeros(k) + (ToDecimal(high) + [Digit(d)]) == Zeros(k) + ToDecimal(high) + [Digit(d)];
    }
  }

  /** Digits that are read as `n` are zeros and then the numeral of `n`. */
  lemma {:induction false} DigitsOfNumber(s: string, n: nat) returns (k: nat)
    requires s != "" && ParseDigits(s) == Some(n)
    ensures s == Zeros(k) + ToDecimal(n)
  {
    var front, d := s[..|s| - 1], DigitValue(s[|s| - 1]).value;
    assert s == front + [Digit(d)];
    if front == "" {
      k := 0;
      assert ParseDigits("") == Some(0);
    } else {
      var high := ParseDigits(front).value;
      k := DigitsOfNumber(front, high);
      k := OneMoreDigit(k, high, d);
    }
  }

  /** The texts that are read as a number: a plus sign or none, zeros, and the number's numeral. */
  function Spelt(plus: bool, zeros: nat, n: nat): string {
    (if plus then "+" else "") + Zeros(zeros) + ToDecimal(n)
  }

  lemma SpeltIsParsed(plus: bool, zeros: nat, n: nat)
    ensures ParseU64(Spelt(plus, zeros, n)) == if n < U64_LIMIT then Some(n) else None
  {
    DecimalDigits(n);
    LeadingZeros(zeros, ToDecimal(n));
    ParseDigitsOfDecimal(n);
    var s, digits := Spelt(plus, zeros, n), Zeros(zeros) + ToDecimal(n);
    if plus {
      assert s[0] == '+' && s[1..] == digits;
    } else {
      assert s == digits && s[0] == if zeros > 0 then '0' else ToDecimal(n)[0];
    }
  }

  lemma ParsedIsSpelt(s: string, n: nat) returns (plus: bool, zeros: nat)
    requires ParseU64(s) == Some(n)
    ensures s == Spelt(plus, zeros, n)
  {
    plus := s[0] == '+';
    zeros := DigitsOfNumber(if plus then s[1..] else s, n);
    assert plus ==> s == "+" + s[1..];
  }
}
