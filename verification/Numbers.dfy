/** The numeric value of a JSON number, and decimal numerals of counters. */
module Numbers {
  import opened Json

  function DigitsValue(s: string): (n: nat) {
    if s == "" then 0
    else 10 * DigitsValue(s[..|s| - 1]) + (if Digit(s[|s| - 1]) then s[|s| - 1] as nat - '0' as nat else 0)
  }

  function Pow10(n: nat): (r: real)
    ensures r > 0.0
  {
    if n == 0 then 1.0 else 10.0 * Pow10(n - 1)
  }

  function Scaled(m: real, s: string): real {
    if s == "" then m
    else if |s| > 1 && s[1] == '-' then m / Pow10(DigitsValue(s[2..]))
    else m * Pow10(DigitsValue(if |s| > 1 && s[1] == '+' then s[2..] else s[1..]))
  }

  /** What digits after the point are worth. */
  function FractionOf(f: string): real {
    DigitsValue(f) as real / Pow10(|f|)
  }

  function UnsignedValue(t: string): real {
    var n := DigitRun(t);
    var whole := DigitsValue(t[..n]) as real;
    if n < |t| && t[n] == '.' && DigitRun(t[n + 1..]) > 0 then
      var rest := t[n + 1..];
      Scaled(whole + FractionOf(rest[..DigitRun(rest)]), rest[DigitRun(rest)..])
    else Scaled(whole, t[n..])
  }

  /** The number a numeral stands for (RFC 8259, section 6). */
  function NumValue(text: string): real {
    if Unsigned(text) == text then UnsignedValue(text) else -UnsignedValue(Unsigned(text))
  }

  /** `Number.isInteger` */
  predicate IsInteger(text: string) {
    NumValue(text) == NumValue(text).Floor as real
  }

  const DIGITS := "0123456789"

  function Decimal(n: nat): (s: string)
    ensures s != "" && (n > 0 ==> s[0] != '0') && (n == 0 ==> s == "0")
    ensures forall i | 0 <= i < |s| :: Digit(s[i])
    ensures DigitsValue(s) == n
  {
    if n < 10 then
      assert DigitsValue([DIGITS[n]][..0]) == 0;
      [DIGITS[n]]
    else
      var s := Decimal(n / 10) + [DIGITS[n % 10]];
      assert s[..|s| - 1] == Decimal(n / 10);
      s
  }

  lemma {:induction false} DigitRunAll(s: string)
    requires forall i | 0 <= i < |s| :: Digit(s[i])
    ensures DigitRun(s) == |s|
  {
    if s != "" { DigitRunAll(s[1..]); }
  }

  /** A counter's numeral is a JSON number with the counter's value. */
  lemma DecimalValue(n: nat)
    ensures IsNumber(Decimal(n)) && NumValue(Decimal(n)) == n as real && IsInteger(Decimal(n))
  {
    var s := Decimal(n);
    assert Unsigned(s) == s;
    DigitRunAll(s);
    assert s[..|s|] == s && s[|s|..] == "";
    if n > 0 { assert s[0] != '0'; } else { assert |s| == 1; }
  }
}
