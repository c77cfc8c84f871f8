/** Decimal integer parsing as the controllers use it for query parameters: Go's
    strconv.Atoi on a 64-bit platform. */
module Strconv {
  import opened Wrappers

  const MinInt := -0x8000_0000_0000_0000
  const MaxInt := 0x7fff_ffff_ffff_ffff

  predicate IsDigit(c: char)
  {
    '0' <= c <= '9'
  }

  predicate AllDigits(s: string)
  {
    forall i :: 0 <= i < |s| ==> IsDigit(s[i])
  }

  /** The value of a string of decimal digits, most significant first. */
  function DigitsValue(s: string): nat
    requires AllDigits(s)
  {
    if s == [] then 0 else DigitsValue(s[..|s| - 1]) * 10 + (s[|s| - 1] as int - '0' as int)
  }

  /** An optional sign and at least one decimal digit whose value fits a 64-bit int;
      anything else (empty, a lone sign, another character, out of range) is an error. */
  function Atoi(s: string): (r: Option<int>)
    ensures r.Some? ==> MinInt <= r.value <= MaxInt
    ensures r.Some? ==> |s| > 0 && (IsDigit(s[0]) || (|s| > 1 && (s[0] == '-' || s[0] == '+')))
  {
    var signed := |s| > 0 && (s[0] == '-' || s[0] == '+');
    var digits := if signed then s[1..] else s;
    if digits == [] || !AllDigits(digits) then None
    else
      var magnitude: int := DigitsValue(digits);
      var v := if |s| > 0 && s[0] == '-' then -magnitude else magnitude;
      if MinInt <= v <= MaxInt then Some(v) else None
  }

  function Digit(d: nat): (c: char)
    requires d < 10
    ensures IsDigit(c) && c as int - '0' as int == d
  {
    ('0' as int + d) as char
  }

  /** The canonical decimal rendering of a natural number: the reference Atoi inverts. */
  function Decimal(n: nat): (s: string)
    ensures |s| > 0 && AllDigits(s)
  {
    if n < 10 then [Digit(n)] else Decimal(n / 10) + [Digit(n % 10)]
  }

  lemma {:induction false} DigitsValueOfDecimal(n: nat)
    ensures DigitsValue(Decimal(n)) == n
  {
    if n >= 10 {
      var s := Decimal(n);
      assert s[..|s| - 1] == Decimal(n / 10);
      DigitsValueOfDecimal(n / 10);
    }
  }

  /** Atoi reads back every int it can hold, written in decimal with a minus sign when
      negative. */
  lemma AtoiOfDecimal(n: int)
    requires MinInt <= n <= MaxInt
    ensures n >= 0 ==> Atoi(Decimal(n)) == Some(n)
    ensures n < 0 ==> Atoi("-" + Decimal(-n)) == Some(n)
  {
    if n >= 0 {
      DigitsValueOfDecimal(n);
    } else {
      DigitsValueOfDecimal(-n);
      assert ("-" + Decimal(-n))[1..] == Decimal(-n);
    }
  }

  /** A leading plus sign is accepted too. */
  lemma AtoiOfPlus(n: nat)
    requires n <= MaxInt
    ensures Atoi("+" + Decimal(n)) == Some(n)
  {
    DigitsValueOfDecimal(n);
    assert ("+" + Decimal(n))[1..] == Decimal(n);
  }

  /** One past the largest int is an error, not a wrapped value. */
  lemma AtoiRejectsOverflow()
    ensures Atoi(Decimal(MaxInt + 1)) == None
  {
    DigitsValueOfDecimal(MaxInt + 1);
  }

  /** Strings that are not signed decimals are errors. */
  lemma AtoiRejectsSyntax()
    ensures Atoi("") == None && Atoi("-") == None && Atoi("+") == None
    ensures Atoi("abc") == None && Atoi("1.5") == None && Atoi(" 1") == None
  {
    assert !AllDigits("abc") by { assert !IsDigit("abc"[0]); }
    assert !AllDigits("1.5") by { assert !IsDigit("1.5"[1]); }
    assert !AllDigits(" 1") by { assert !IsDigit(" 1"[0]); }
  }
}
