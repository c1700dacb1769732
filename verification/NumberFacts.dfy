/** What a JSON numeral is worth, form by form (RFC 8259, section 6). */
module NumberFacts {
  import opened Json
  import opened Numbers

  predicate Digits(s: string) {
    s != "" && forall i | 0 <= i < |s| :: '0' <= s[i] <= '9'
  }

  lemma DigitsMore(s: string, c: char)
    requires '0' <= c <= '9'
    ensures DigitsValue("") == 0 && DigitsValue(s + [c]) == 10 * DigitsValue(s) + (c as nat - '0' as nat)
  {
    assert (s + [c])[..|s|] == s;
  }

  lemma {:induction false} DigitRunOf(w: string, rest: string)
    requires (forall i | 0 <= i < |w| :: '0' <= w[i] <= '9') && (rest != "" ==> !('0' <= rest[0] <= '9'))
    ensures DigitRun(w + rest) == |w| && (w + rest)[..|w|] == w && (w + rest)[|w|..] == rest
  {
    if w == "" {
      assert w + rest == rest;
    } else {
      assert (w + rest)[1..] == w[1..] + rest;
      DigitRunOf(w[1..], rest);
    }
  }

  lemma WholeParts(w: string, tail: string)
    requires Digits(w) && (tail == "" || tail[0] == 'e' || tail[0] == 'E')
    ensures UnsignedValue(w + tail) == Scaled(DigitsValue(w) as real, tail)
  {
    DigitRunOf(w, tail);
    hide Scaled, DigitsValue, DigitRun, FractionOf;
    assert tail != "" ==> (w + tail)[|w|] == tail[0];
  }

  lemma FractionParts(w: string, f: string, tail: string)
    requires Digits(w) && Digits(f) && (tail == "" || tail[0] == 'e' || tail[0] == 'E')
    ensures UnsignedValue(w + ("." + (f + tail))) == Scaled(DigitsValue(w) as real + FractionOf(f), tail)
  {
    var t := w + ("." + (f + tail));
    hide *;
    FractionTail(w, f, tail);
    UnfoldFraction(t, |w|, f + tail, |f|);
  }

  lemma FractionTail(w: string, f: string, tail: string)
    requires Digits(w) && Digits(f) && (tail == "" || tail[0] == 'e' || tail[0] == 'E')
    ensures var t := w + ("." + (f + tail));
            && DigitRun(t) == |w| < |t| && t[|w|] == '.' && t[|w| + 1..] == f + tail && t[..|w|] == w
            && DigitRun(f + tail) == |f| > 0 && (f + tail)[..|f|] == f && (f + tail)[|f|..] == tail
  {
    DigitRunOf(w, "." + (f + tail));
    DigitRunOf(f, tail);
    hide DigitRun;
  }

  lemma UnfoldFraction(t: string, n: nat, rest: string, k: nat)
    requires DigitRun(t) == n < |t| && t[n] == '.' && t[n + 1..] == rest && DigitRun(rest) == k > 0
    ensures UnsignedValue(t) == Scaled(DigitsValue(t[..n]) as real + FractionOf(rest[..k]), rest[k..])
  {
    hide Scaled, DigitsValue, DigitRun, FractionOf;
  }

  lemma Positive(w: string, rest: string)
    requires Digits(w)
    ensures NumValue(w + rest) == UnsignedValue(w + rest)
  {
    hide UnsignedValue;
    assert (w + rest)[0] == w[0];
  }

  lemma NegativeValue(t: string)
    requires t != "" && t[0] != '-'
    ensures NumValue("-" + t) == -NumValue(t)
  {
    hide UnsignedValue;
    assert ("-" + t)[1..] == t && |"-" + t| == |t| + 1;
  }

  /** A numeral without a fraction, and one with. */
  lemma PlainValue(w: string, f: string)
    requires Digits(w) && Digits(f)
    ensures NumValue(w) == DigitsValue(w) as real
    ensures NumValue(w + ("." + f)) == DigitsValue(w) as real + FractionOf(f)
  {
    hide *;
    WholeParts(w, "");
    FractionParts(w, f, "");
    ScaledNothing(DigitsValue(w) as real);
    ScaledNothing(DigitsValue(w) as real + FractionOf(f));
    assert w + "" == w && f + "" == f;
    Positive(w, "");
    Positive(w, "." + f);
  }

  lemma FractionMeans(f: string)
    ensures FractionOf(f) == DigitsValue(f) as real / Pow10(|f|)
  {
  }

  /** The exponent multiplies by a power of ten, or with a minus sign divides. */
  lemma ExponentValue(w: string, f: string, e: char, sign: string, x: string)
    requires Digits(w) && (f == "" || Digits(f)) && (e == 'e' || e == 'E') && sign in ["", "+", "-"] && Digits(x)
    ensures var m := if f == "" then w else w + ("." + f);
            NumValue(m + ([e] + sign + x))
            == if sign == "-" then NumValue(m) / Pow10(DigitsValue(x)) else NumValue(m) * Pow10(DigitsValue(x))
  {
    ExponentTail(e, sign);
    hide *;
    var tail := [e] + sign + x;
    ScaledTail(e, sign, x);
    assert tail[0] == e;
    if f == "" {
      WholeParts(w, "");
      WholeParts(w, tail);
      ScaledNothing(DigitsValue(w) as real);
      assert w + "" == w;
      Positive(w, "");
      Positive(w, tail);
    } else {
      FractionParts(w, f, "");
      FractionParts(w, f, tail);
      ScaledNothing(DigitsValue(w) as real + FractionOf(f));
      assert f + "" == f && w + ("." + (f + tail)) == w + ("." + f) + tail;
      Positive(w, "." + f);
      Positive(w, "." + (f + tail));
    }
  }

  lemma ExponentTail(e: char, sign: string)
    ensures [e] + sign != ""
  {
  }

  lemma ScaledNothing(m: real)
    ensures Scaled(m, "") == m
  {
  }

  lemma ScaledTail(e: char, sign: string, x: string)
    requires sign in ["", "+", "-"] && Digits(x)
    ensures forall m: real ::
              Scaled(m, [e] + sign + x)
              == if sign == "-" then m / Pow10(DigitsValue(x)) else m * Pow10(DigitsValue(x))
  {
    var tail := [e] + sign + x;
    assert sign == "" ==> tail[1..] == x && tail[1] == x[0];
    assert sign != "" ==> tail[2..] == x && tail[1] == sign[0];
    hide Pow10, DigitsValue;
  }

  /** Powers of ten. */
  lemma Tenfold(n: nat)
    ensures Pow10(0) == 1.0 && Pow10(n + 1) == 10.0 * Pow10(n)
  {
  }

  /** One and a half. */
  lemma OneAndAHalf()
    ensures IsNumber("1.5") && NumValue("1.5") == 1.5
  {
    OneAndAHalfShape();
    hide *;
    PlainValue("1", "5");
    FractionMeans("5");
    DigitsMore("", '1');
    DigitsMore("", '5');
    Tenfold(0);
    assert "1" + ("." + "5") == "1.5" && "" + ['1'] == "1" && "" + ['5'] == "5";
    assert Pow10(1) == 10.0;
  }

  lemma OneAndAHalfShape()
    ensures IsNumber("1.5") && Digits("1") && Digits("5")
  {
    DigitRunOf("1", ".5");
    DigitRunOf("5", "");
    hide DigitRun;
    assert "1" + ".5" == "1.5" && "5" + "" == "5" && ".5"[1..] == "5";
  }
}
