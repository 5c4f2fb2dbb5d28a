/**
 * `parseFloat` and `parseInt` restricted to the inputs the storm-event files use:
 * leading white space, then an unsigned decimal numeral, optionally followed by other
 * text. Signs, exponents, Infinity and radix prefixes are not modelled.
 */
module JsNumbers {
  import opened JsValues
  import opened JsText

  /** Number of leading decimal digits of `s`. */
  function LeadingDigits(s: string): (n: nat)
    ensures n <= |s|
    ensures AllDigits(s[..n])
    ensures n < |s| ==> !IsDigit(s[n])
  {
    if s == [] || !IsDigit(s[0]) then 0
    else
      var n := 1 + LeadingDigits(s[1..]);
      assert s[..n] == [s[0]] + s[1..][..n - 1];
      n
  }

  /** Length of the longest prefix of the form digits ['.' digits]. */
  function NumeralLength(s: string): (n: nat)
    ensures LeadingDigits(s) <= n <= |s|
  {
    var a := LeadingDigits(s);
    if a < |s| && s[a] == '.' then a + 1 + LeadingDigits(s[a + 1..]) else a
  }

  function Pow10(k: nat): (p: nat)
    ensures p >= 1
  {
    if k == 0 then 1 else 10 * Pow10(k - 1)
  }

  /** The digits after the decimal point of the numeral prefix (empty when there is none). */
  function FractionDigits(s: string): (f: string)
    ensures AllDigits(f)
  {
    var a := LeadingDigits(s);
    if a < |s| && s[a] == '.' then s[a + 1..][..LeadingDigits(s[a + 1..])] else ""
  }

  /** The value of the digits after a decimal point: 0.d1d2... = (d1 + 0.d2...) / 10. */
  function FractionValue(f: string): (v: real)
    requires AllDigits(f)
    ensures 0.0 <= v
    ensures f == [] ==> v == 0.0
  {
    if f == [] then 0.0 else (DigitValue(f[0]) as real + FractionValue(f[1..])) / 10.0
  }

  /** The value a decimal numeral `whole.frac` denotes. */
  function DecimalValue(whole: string, frac: string): (v: real)
    requires AllDigits(whole) && AllDigits(frac)
    ensures v >= 0.0
  {
    DigitsValue(whole) as real + FractionValue(frac)
  }

  /** A numeral with integer digits `whole` and fraction digits `frac`; `None` (NaN) when it has no digit. */
  function DecimalNumber(whole: string, frac: string): (r: Option<real>)
    requires AllDigits(whole) && AllDigits(frac)
  {
    if whole == [] && frac == [] then None else Some(DecimalValue(whole, frac))
  }

  /**
   * `parseFloat(s)` on an unsigned decimal numeral prefix after leading white space;
   * `None` is NaN, which is what `parseFloat` gives when the prefix holds no digit at all.
   */
  function ParseFloat(s: string): (r: Option<real>)
    ensures var t := TrimStart(s); r.Some? <==> LeadingDigits(t) > 0 || |FractionDigits(t)| > 0
    ensures r.Some? ==> r.value >= 0.0
  {
    var t := TrimStart(s);
    DecimalNumber(t[..LeadingDigits(t)], FractionDigits(t))
  }

  /** The restricted grammar of an amount: white space, a numeral, then at most one more character. */
  predicate WellFormedAmount(s: string)
  {
    var t := TrimStart(s);
    |t| - NumeralLength(t) <= 1
  }

  /** `parseInt(s)` in base 10: the digits after leading white space; `None` is NaN. */
  function ParseInt(s: string): (r: Option<nat>)
    ensures var t := TrimStart(s); r.Some? <==> |t| > 0 && IsDigit(t[0])
  {
    var t := TrimStart(s);
    var a := LeadingDigits(t);
    if a == 0 then None else Some(DigitsValue(t[..a]))
  }

  /** Leading white space does not change what `parseInt` or `parseFloat` reads. */
  lemma ParseAfterSpace(ws: string, s: string)
    requires forall i :: 0 <= i < |ws| ==> JsWhiteSpace(ws[i])
    ensures ParseInt(ws + s) == ParseInt(s)
    ensures ParseFloat(ws + s) == ParseFloat(s)
    ensures WellFormedAmount(ws + s) == WellFormedAmount(s)
  {
    TrimStartAfterSpace(ws, s);
  }

  /** `parseInt` stops at the first character that is not a digit. */
  lemma ParseIntStops(ds: string, rest: string)
    requires AllDigits(ds) && ds != []
    requires rest == [] || !IsDigit(rest[0])
    ensures ParseInt(ds + rest) == ParseInt(ds)
  {
    var s := ds + rest;
    assert s[0] == ds[0];
    assert TrimStart(s) == s && TrimStart(ds) == ds;
    LeadingDigitsStop(ds, rest);
    LeadingDigitsOfDigits(ds);
    assert s[..|ds|] == ds[..|ds|];
  }

  /** `parseInt` reads back what `String` prints. */
  lemma ParseIntOfNatToString(n: nat)
    ensures ParseInt(NatToString(n)) == Some(n)
  {
    var s := NatToString(n);
    assert LeadingDigits(s) == |s| by {
      LeadingDigitsOfDigits(s);
    }
    assert s[..|s|] == s;
  }

  lemma {:induction false} LeadingDigitsOfDigits(s: string)
    requires AllDigits(s)
    ensures LeadingDigits(s) == |s|
  {
    if s != [] {
      LeadingDigitsOfDigits(s[1..]);
    }
  }

  /** A run of digits followed by a non-digit: `parseInt` stops at the non-digit. */
  lemma {:induction false} LeadingDigitsStop(ds: string, rest: string)
    requires AllDigits(ds)
    requires rest == [] || !IsDigit(rest[0])
    ensures LeadingDigits(ds + rest) == |ds|
  {
    if ds != [] {
      assert (ds + rest)[1..] == ds[1..] + rest;
      LeadingDigitsStop(ds[1..], rest);
    } else {
      assert ds + rest == rest;
    }
  }

  /** A text that does not start with white space is read as it is. */
  lemma ParseFloatUntrimmed(s: string)
    requires s == [] || !JsWhiteSpace(s[0])
    ensures ParseFloat(s) == DecimalNumber(s[..LeadingDigits(s)], FractionDigits(s))
  {
  }

  /** `parseFloat` of `whole.frac` followed by a non-digit reads exactly the numeral. */
  lemma ParseFloatOfDecimal(whole: string, frac: string, rest: string)
    requires AllDigits(whole) && AllDigits(frac)
    requires rest == [] || !IsDigit(rest[0])
    ensures NumeralLength(whole + "." + frac + rest) == |whole| + 1 + |frac|
    ensures ParseFloat(whole + "." + frac + rest) == DecimalNumber(whole, frac)
  {
    var s := whole + "." + frac + rest;
    DecimalNumeral(whole, frac, rest);
    assert !JsWhiteSpace(s[0]) by {
      assert s[0] == '.' || IsDigit(s[0]);
    }
    ParseFloatUntrimmed(s);
  }

  /** The integer digits, the point and the fraction digits of `whole.frac` followed by a non-digit. */
  lemma DecimalNumeral(whole: string, frac: string, rest: string)
    requires AllDigits(whole) && AllDigits(frac)
    requires rest == [] || !IsDigit(rest[0])
    ensures var s := whole + "." + frac + rest;
      && LeadingDigits(s) == |whole| && s[..|whole|] == whole
      && FractionDigits(s) == frac
      && NumeralLength(s) == |whole| + 1 + |frac|
  {
    var tail := "." + frac + rest;
    var s := whole + tail;
    assert whole + "." + frac + rest == s;
    assert LeadingDigits(s) == |whole| && s[..|whole|] == whole && s[|whole|] == '.' by {
      LeadingDigitsStop(whole, tail);
    }
    assert LeadingDigits(s[|whole| + 1..]) == |frac| && s[|whole| + 1..][..|frac|] == frac by {
      assert s[|whole| + 1..] == frac + rest;
      LeadingDigitsStop(frac, rest);
    }
  }

  /** Digits followed by neither a digit nor a decimal point: the numeral is the digits. */
  lemma WholeNumeral(whole: string, rest: string)
    requires AllDigits(whole)
    requires rest == [] || (!IsDigit(rest[0]) && rest[0] != '.')
    ensures LeadingDigits(whole + rest) == NumeralLength(whole + rest) == |whole|
    ensures (whole + rest)[..|whole|] == whole
    ensures FractionDigits(whole + rest) == ""
  {
    var s := whole + rest;
    LeadingDigitsStop(whole, rest);
    assert s[..|whole|] == whole;
    if rest != [] {
      assert s[|whole|] == rest[0];
    }
  }

  /**
   * `parseFloat` of digits followed by neither a digit nor a decimal point reads the
   * digits (with no digits at all, the text must not start with white space).
   */
  lemma ParseFloatOfWhole(whole: string, rest: string)
    requires AllDigits(whole)
    requires rest == [] || (!IsDigit(rest[0]) && rest[0] != '.')
    requires whole == [] && rest != [] ==> !JsWhiteSpace(rest[0])
    ensures NumeralLength(whole + rest) == |whole|
    ensures ParseFloat(whole + rest) == DecimalNumber(whole, "")
  {
    var s := whole + rest;
    assert s == [] || !JsWhiteSpace(s[0]) by {
      if whole != [] {
        assert s[0] == whole[0];
      } else {
        assert s == rest;
      }
    }
    ParseFloatUntrimmed(s);
    WholeNumeral(whole, rest);
  }
}
