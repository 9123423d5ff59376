/** Token-text conversions the walker relies on: Java's `Integer.parseInt`
    for integer tokens and `ParseUtils.stripQuotes` for string tokens. */
module Literals {
  import opened Wrappers
  import opened Values

  /** The range of a Java `int`. */
  const IntMin: int := -0x8000_0000
  const IntMax: int := 0x7fff_ffff

  predicate IsDigit(c: char) { '0' <= c <= '9' }

  predicate AllDigits(s: string) { forall i :: 0 <= i < |s| ==> IsDigit(s[i]) }

  function DigitValue(c: char): (d: nat)
    requires IsDigit(c)
    ensures d < 10
  {
    c as int - '0' as int
  }

  function DigitChar(d: nat): (c: char)
    requires d < 10
    ensures IsDigit(c) && DigitValue(c) == d
  {
    ('0' as int + d) as char
  }

  /** The value of a decimal digit string, most significant digit first. */
  function DigitsValue(s: string): nat
    requires AllDigits(s)
  {
    if s == [] then 0 else 10 * DigitsValue(s[..|s| - 1]) + DigitValue(s[|s| - 1])
  }

  /** The digits of a Java `int` token after its optional sign. */
  function Magnitude(s: string): string
    requires |s| > 0
  {
    if s[0] == '-' || s[0] == '+' then s[1..] else s
  }

  /** `Integer.parseInt`: an optional `-` or `+`, then one or more decimal
      digits denoting a value in the `int` range; any other text raises a
      NumberFormatException, modelled as `NumberFormat(s)`. */
  function ParseInt(s: string): (r: Result<int, Error>)
    ensures r.Ok? ==> IntMin <= r.value <= IntMax
    ensures r.Ok? ==> |s| > 0 && |Magnitude(s)| > 0 && AllDigits(Magnitude(s))
    ensures r.Err? ==> r.error == NumberFormat(s)
  {
    if |s| == 0 || |Magnitude(s)| == 0 || !AllDigits(Magnitude(s)) then Err(NumberFormat(s))
    else
      var m: int := DigitsValue(Magnitude(s));
      var v := if s[0] == '-' then -m else m;
      if IntMin <= v <= IntMax then Ok(v) else Err(NumberFormat(s))
  }

  /** A digit string, bare or after one sign, parses to its decimal value,
      negated after a `-`, exactly when that value is an `int`; otherwise
      the whole text is reported. */
  lemma ParseIntDigits(d: string)
    requires |d| > 0 && AllDigits(d)
    ensures ParseInt(d) == if DigitsValue(d) <= IntMax then Ok(DigitsValue(d)) else Err(NumberFormat(d))
    ensures ParseInt("+" + d) ==
      if DigitsValue(d) <= IntMax then Ok(DigitsValue(d)) else Err(NumberFormat("+" + d))
    ensures var m: int := DigitsValue(d);
      ParseInt("-" + d) == if -m >= IntMin then Ok(-m) else Err(NumberFormat("-" + d))
  {
    assert Magnitude(d) == d;
    assert Magnitude("+" + d) == d;
    assert Magnitude("-" + d) == d;
  }

  /** Leading zeros and a `+` sign are accepted; a sign alone, or a digit
      string with a trailing letter, is not. */
  lemma ParseIntSamples()
    ensures ParseInt("007") == Ok(7)
    ensures ParseInt("+7") == Ok(7)
    ensures ParseInt("-7") == Ok(-7)
    ensures ParseInt("-") == Err(NumberFormat("-"))
    ensures ParseInt("12a") == Err(NumberFormat("12a"))
  {
    ParseIntDigits("007");
    ParseIntDigits("7");
    assert "+7" == "+" + "7" && "-7" == "-" + "7";
    assert Magnitude("-") == [];
    assert Magnitude("12a") == "12a" && !IsDigit("12a"[2]);
  }

  /** Decimal digits of a natural number, without leading zeros. */
  function NatToDigits(n: nat): string
  {
    if n < 10 then [DigitChar(n)] else NatToDigits(n / 10) + [DigitChar(n % 10)]
  }

  /** `Integer.toString`: the canonical decimal text of an `int`. */
  function IntToString(n: int): string
  {
    if n < 0 then "-" + NatToDigits(-n) else NatToDigits(n)
  }

  lemma {:induction false} NatToDigitsValue(n: nat)
    ensures |NatToDigits(n)| > 0 && IsDigit(NatToDigits(n)[0])
    ensures AllDigits(NatToDigits(n)) && DigitsValue(NatToDigits(n)) == n
  {
    var s := NatToDigits(n);
    if n >= 10 {
      NatToDigitsValue(n / 10);
      var p := NatToDigits(n / 10);
      assert s == p + [DigitChar(n % 10)];
      assert s[..|s| - 1] == p;
      assert s[0] == p[0];
    }
  }

  /** Reading back the canonical text of any `int` gives that `int`. */
  lemma ParseIntRoundTrip(n: int)
    requires IntMin <= n <= IntMax
    ensures ParseInt(IntToString(n)) == Ok(n)
  {
    var s := IntToString(n);
    if n < 0 {
      NatToDigitsValue(-n);
      assert s[0] == '-' && Magnitude(s) == NatToDigits(-n);
    } else {
      NatToDigitsValue(n);
      assert Magnitude(s) == NatToDigits(n);
    }
  }

  /** `ParseUtils.stripQuotes`: drops one leading and one trailing double
      quote when the token carries both, and leaves other text as it is. */
  function StripQuotes(s: string): (r: string)
    ensures r == s || s == "\"" + r + "\""
  {
    if |s| >= 2 && s[0] == '"' && s[|s| - 1] == '"' then s[1..|s| - 1] else s
  }

  /** The string-literal token for a value. */
  function Quote(v: string): (r: string)
    ensures StripQuotes(r) == v
  {
    var r := "\"" + v + "\"";
    assert r[1..|r| - 1] == v;
    r
  }
}
