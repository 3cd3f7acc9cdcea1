/**
 * The part of Go's `strconv` the core relies on: `Atoi`, which turns a query
 * parameter or a path segment into an `int`, and `Itoa` as its inverse partner.
 */
module Strconv {
  import opened Wrappers
  import opened GoInt

  predicate IsDigit(c: char)
  {
    '0' <= c <= '9'
  }

  predicate AllDigits(s: string)
  {
    forall i :: 0 <= i < |s| ==> IsDigit(s[i])
  }

  function DigitValue(c: char): nat
    requires IsDigit(c)
  {
    c as int - '0' as int
  }

  function DigitChar(d: nat): char
    requires d < 10
  {
    ('0' as int + d) as char
  }

  /** The number a string of decimal digits denotes, read left to right. */
  function DecimalValue(s: string): nat
    requires AllDigits(s)
  {
    if s == [] then 0 else DecimalValue(s[..|s| - 1]) * 10 + DigitValue(s[|s| - 1])
  }

  /** `s` without its leading sign, if it has one. */
  function Magnitude(s: string): string
  {
    if |s| > 0 && (s[0] == '+' || s[0] == '-') then s[1..] else s
  }

  /** The base-10 syntax `Atoi` accepts: an optional `+` or `-`, then at least one ASCII digit. */
  predicate IsDecimal(s: string)
  {
    |Magnitude(s)| > 0 && AllDigits(Magnitude(s))
  }

  /** The integer a signed decimal denotes, before any range check. */
  function SignedValue(s: string): int
    requires IsDecimal(s)
  {
    var v: int := DecimalValue(Magnitude(s));
    if s[0] == '-' then -v else v
  }

  /**
   * strconv.Atoi on a 64-bit platform. `None` stands for both of its errors:
   * a syntax error (including the empty string) and a value outside the range of `int`.
   */
  function Atoi(s: string): (r: Option<int>)
    ensures r.Some? ==> s != [] && IsDecimal(s) && IsInt64(r.value)
    ensures r.Some? ==> (r.value < 0 <==> s[0] == '-' && DecimalValue(Magnitude(s)) > 0)
  {
    if IsDecimal(s) && IsInt64(SignedValue(s)) then Some(SignedValue(s)) else None
  }

  /** The decimal digits of `n`, most significant first, without leading zeros. */
  function NatDigits(n: nat): (s: string)
    ensures |s| > 0 && AllDigits(s)
    ensures s[0] == '0' ==> n == 0 && |s| == 1
  {
    if n < 10 then [DigitChar(n)] else NatDigits(n / 10) + [DigitChar(n % 10)]
  }

  /** strconv.Itoa: the canonical decimal text of `n`. */
  function Itoa(n: int): string
  {
    if n < 0 then "-" + NatDigits(-n) else NatDigits(n)
  }

  /** Text in the form `Itoa` writes: no `+`, no leading zero, no "-0". */
  predicate IsCanonical(s: string)
  {
    IsDecimal(s) && s[0] != '+' &&
    (Magnitude(s)[0] == '0' ==> s == "0")
  }

  lemma {:induction false} DecimalValueOfNatDigits(n: nat)
    ensures DecimalValue(NatDigits(n)) == n
  {
    if n >= 10 {
      var s := NatDigits(n);
      assert s[..|s| - 1] == NatDigits(n / 10);
      DecimalValueOfNatDigits(n / 10);
    }
  }

  /** Reading back what `Itoa` writes gives the number again, for every `int`. */
  lemma AtoiItoa(n: int)
    requires IsInt64(n)
    ensures Atoi(Itoa(n)) == Some(n)
    ensures IsCanonical(Itoa(n))
  {
    var s := Itoa(n);
    if n < 0 {
      var d := NatDigits(-n);
      assert s[1..] == d;
      assert Magnitude(s) == d;
      DecimalValueOfNatDigits(-n);
    } else {
      assert Magnitude(s) == NatDigits(n);
      DecimalValueOfNatDigits(n);
    }
    assert IsDecimal(s);
    assert SignedValue(s) == n;
  }

  lemma {:induction false} PositiveDecimal(s: string)
    requires |s| > 0 && AllDigits(s) && s[0] != '0'
    ensures DecimalValue(s) > 0
  {
    if |s| > 1 {
      PositiveDecimal(s[..|s| - 1]);
    }
  }

  lemma {:induction false} NatDigitsOfDecimalValue(s: string)
    requires |s| > 0 && AllDigits(s) && (s[0] == '0' ==> |s| == 1)
    ensures NatDigits(DecimalValue(s)) == s
  {
    var v := DecimalValue(s);
    if |s| == 1 {
      assert s == [s[0]];
    } else {
      var front := s[..|s| - 1];
      var d := DigitValue(s[|s| - 1]);
      PositiveDecimal(front);
      NatDigitsOfDecimalValue(front);
      assert v == DecimalValue(front) * 10 + d;
      assert v / 10 == DecimalValue(front) && v % 10 == d;
      assert s == front + [s[|s| - 1]];
    }
  }

  /** Conversely, every canonical text that `Atoi` accepts is what `Itoa` writes for its value. */
  lemma ItoaAtoi(s: string)
    requires IsCanonical(s) && Atoi(s).Some?
    ensures Itoa(Atoi(s).value) == s
  {
    var m := Magnitude(s);
    NatDigitsOfDecimalValue(m);
    if s[0] == '-' {
      PositiveDecimal(m);
      assert s == "-" + m;
    } else {
      assert m == s;
    }
  }
}
