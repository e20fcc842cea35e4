/**
 * Decimal text of unsigned integers: Rust's `format!("{}", n)` for the token id and
 * `str::parse::<u64>` for the duration message.
 */
module DecimalText {
  import opened Uints
  import opened Options

  predicate IsDigit(c: char) { '0' <= c <= '9' }

  predicate AllDigits(s: string) { forall i :: 0 <= i < |s| ==> IsDigit(s[i]) }

  function DigitChar(d: nat): (c: char)
    requires d < 10
    ensures IsDigit(c) && c as int - '0' as int == d
  {
    (d + '0' as int) as char
  }

  /** The number a string of decimal digits denotes, most significant digit first. */
  function DigitsValue(s: string): nat
    requires AllDigits(s)
  {
    if s == [] then 0 else DigitsValue(s[..|s| - 1]) * 10 + (s[|s| - 1] as int - '0' as int)
  }

  /** The canonical decimal form of `n`: digits only, never empty, no leading zero except for 0 itself. */
  function Decimal(n: nat): (s: string)
    ensures |s| > 0 && AllDigits(s)
    ensures s[0] == '0' <==> n == 0
  {
    if n < 10 then [DigitChar(n)] else Decimal(n / 10) + [DigitChar(n % 10)]
  }

  /**
   * `str::parse::<u64>`: an optional leading '+', then one or more ASCII digits whose value
   * fits in 64 bits. A '-' sign, an empty string, a lone '+' and any other character fail.
   */
  function ParseU64(s: string): (r: Option<U64>)
    ensures r.Some? ==> |s| > 0 && IsDigit(s[|s| - 1])
    ensures r.Some? ==> forall i :: 0 < i < |s| ==> IsDigit(s[i])
    ensures r.Some? ==> IsDigit(s[0]) || s[0] == '+'
    ensures r.Some? ==> AllDigits(Unsigned(s)) && r.value == DigitsValue(Unsigned(s))
    ensures Unsigned(s) != [] && AllDigits(Unsigned(s)) && DigitsValue(Unsigned(s)) < U64_LIMIT
            ==> r == Some(DigitsValue(Unsigned(s)))
  {
    var digits := Unsigned(s);
    if digits == [] || !AllDigits(digits) then None
    else
      var v := DigitsValue(digits);
      if v < U64_LIMIT then Some(v) else None
  }

  /** The text after an optional leading '+'. */
  function Unsigned(s: string): (u: string)
    ensures |s| > 0 && s[0] == '+' ==> "+" + u == s
    ensures !(|s| > 0 && s[0] == '+') ==> u == s
  {
    if |s| > 0 && s[0] == '+' then s[1..] else s
  }

  lemma {:induction false} DecimalValue(n: nat)
    ensures DigitsValue(Decimal(n)) == n
  {
    if n >= 10 {
      var s := Decimal(n);
      assert s[..|s| - 1] == Decimal(n / 10);
      DecimalValue(n / 10);
    }
  }

  /** Leading zeros do not change the value of a digit string. */
  lemma {:induction false} ZeroPaddingValue(u: string)
    requires AllDigits(u)
    ensures AllDigits("0" + u) && DigitsValue("0" + u) == DigitsValue(u)
    decreases |u|
  {
    if u != [] {
      var p := "0" + u;
      assert p[..|p| - 1] == "0" + u[..|u| - 1];
      ZeroPaddingValue(u[..|u| - 1]);
    }
  }

  /**
   * Parsing the decimal form of any u64 gives it back, with or without a '+' sign and with a
   * leading zero.
   */
  lemma ParseDecimal(n: U64)
    ensures ParseU64(Decimal(n)) == Some(n)
    ensures ParseU64("+" + Decimal(n)) == Some(n)
    ensures ParseU64("0" + Decimal(n)) == Some(n)
  {
    DecimalValue(n);
    ZeroPaddingValue(Decimal(n));
    assert ("+" + Decimal(n))[1..] == Decimal(n);
  }

  /**
   * A message whose digits (after an optional '+', leading zeros included) denote 2^64 or more
   * is rejected rather than wrapped.
   */
  lemma ParseRejectsOverflow(s: string)
    requires Unsigned(s) != [] && AllDigits(Unsigned(s)) && DigitsValue(Unsigned(s)) >= U64_LIMIT
    ensures ParseU64(s) == None
  {
  }

  /** In particular the decimal form of any number of 2^64 and above is rejected. */
  lemma ParseRejectsLargeDecimal(n: nat)
    requires n >= U64_LIMIT
    ensures ParseU64(Decimal(n)) == None
    ensures ParseU64("+" + Decimal(n)) == None
  {
    DecimalValue(n);
    assert Unsigned("+" + Decimal(n)) == Decimal(n);
    ParseRejectsOverflow("+" + Decimal(n));
  }

  /** Two numbers with the same decimal form are equal. */
  lemma DecimalInjective(a: nat, b: nat)
    requires Decimal(a) == Decimal(b)
    ensures a == b
  {
    DecimalValue(a);
    DecimalValue(b);
  }
}
