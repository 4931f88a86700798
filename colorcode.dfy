/**
 * `generateColorCode`: the colour bands for a resistance. The value is
 * written out in decimal; its first digit and its second digit (0 when
 * there is none) pick the two digit colours and the digit count picks the
 * multiplier colour from the ten-entry digit table `colorCodes`.
 */
module ColorCode {
  import opened Wrappers
  import opened Palette
  import opened Decoder

  /** The names of the ten digit colours of `colorCodes`, by digit. */
  const DigitColourNames: seq<string> :=
    ["Black", "Brown", "Red", "Orange", "Yellow", "Green", "Blue", "Violet", "Gray", "White"]

  /** The digit table and the scanner's palette name the ten digits alike. */
  lemma DigitColoursMatchPalette()
    ensures |DigitColourNames| == 10
    ensures forall i :: 0 <= i < 10 ==> DigitColourNames[i] == BandColors[i].name
  {
    PaletteValues();
  }

  /** The decimal digits of v, most significant first (`v.toString()`). */
  function Digits(v: nat): (ds: seq<nat>)
    ensures |ds| >= 1
    ensures forall i :: 0 <= i < |ds| ==> ds[i] < 10
    ensures v >= 10 ==> ds[0] != 0
    decreases v
  {
    if v < 10 then [v] else Digits(v / 10) + [v % 10]
  }

  /** The number a sequence of decimal digits stands for. */
  function FromDigits(ds: seq<nat>): nat
  {
    if ds == [] then 0 else FromDigits(ds[..|ds| - 1]) * 10 + ds[|ds| - 1]
  }

  /** Reading the digits of v back gives v. */
  lemma {:induction false} DigitsRoundTrip(v: nat)
    ensures FromDigits(Digits(v)) == v
    decreases v
  {
    if v >= 10 {
      DigitsRoundTrip(v / 10);
      var ds := Digits(v);
      assert ds[..|ds| - 1] == Digits(v / 10);
    }
  }

  /** A positive v has n digits exactly when 10^(n-1) <= v < 10^n. */
  lemma {:induction false} DigitsLength(v: nat)
    requires v >= 1
    ensures Pow10(|Digits(v)| - 1) <= v < Pow10(|Digits(v)|)
    decreases v
  {
    if v >= 10 {
      DigitsLength(v / 10);
    }
  }

  /** Why no colour code comes out. */
  datatype CodeError =
    | InvalidValue    // `parseInt` gave NaN, or a value below 1
    | MissingColour   // the multiplier index has no colour in the table

  /** The colours of a code: two digits and a multiplier, as table indexes. */
  datatype Code = Code(first: nat, second: nat, multiplier: nat)

  /**
   * `generateColorCode` as written: band 1 is the first digit, band 2 the
   * second (0 for a one-digit value), and the multiplier colour is entry
   * `(digits - 2) + 1` of the digit table, which has no entry 10 or more.
   * The input is `parseInt` of the entered text, None for NaN.
   */
  function ColorCodeAsWritten(input: Option<int>): (r: Result<Code, CodeError>)
    ensures r == Err(InvalidValue) <==> input.None? || input.value < 1
    ensures input.Some? && input.value >= 1 ==> (r == Err(MissingColour) <==> input.value >= Pow10(10))
    ensures r.Ok? ==> r.value.first < 10 && r.value.second < 10 && r.value.multiplier < 10
  {
    if input.None? || input.value < 1 then Err(InvalidValue)
    else
      var ds := Digits(input.value);
      DigitsLength(input.value);
      var index := (|ds| - 2) + 1;
      if index > 9 then
        assert Pow10(10) <= Pow10(|ds| - 1) by { Pow10Monotone(10, |ds| - 1); }
        Err(MissingColour)
      else
        assert Pow10(|ds|) <= Pow10(10) by { Pow10Monotone(|ds|, 10); }
        Ok(Code(ds[0], if |ds| > 1 then ds[1] else 0, index))
  }

  /** Powers of ten grow with the exponent. */
  lemma {:induction false} Pow10Monotone(a: nat, b: nat)
    requires a <= b
    ensures Pow10(a) <= Pow10(b)
    decreases b
  {
    if a < b {
      Pow10Monotone(a, b - 1);
    }
  }

  /**
   * v cut to its two leading digits: the digits after the second become 0
   * (a value of one or two digits is kept).
   */
  function TwoSignificant(v: nat): nat
    decreases v
  {
    if v < 100 then v else 10 * TwoSignificant(v / 10)
  }

  /** k followed by n zeros. */
  function Shifted(k: nat, n: nat): nat
  {
    if n == 0 then k else 10 * Shifted(k, n - 1)
  }

  /** Following k by n zeros multiplies it by 10^n. */
  lemma {:induction false} ShiftedIsProduct(k: nat, n: nat)
    ensures Shifted(k, n) == k * Pow10(n)
  {
    if n > 0 {
      ShiftedIsProduct(k, n - 1);
      assert k * Pow10(n) == 10 * (k * Pow10(n - 1));
    }
  }

  /** A value of n >= 2 digits cut to two digits is its two leading digits followed by n - 2 zeros. */
  lemma {:induction false} TwoSignificantLeading(v: nat)
    requires |Digits(v)| >= 2
    ensures TwoSignificant(v) == Shifted(10 * Digits(v)[0] + Digits(v)[1], |Digits(v)| - 2)
    decreases v
  {
    var ds, ds' := Digits(v), Digits(v / 10);
    assert ds == ds' + [v % 10];
    if v >= 100 {
      TwoSignificantLeading(v / 10);
      assert ds[0] == ds'[0] && ds[1] == ds'[1];
    }
  }

  /** v is its own two-digit cut exactly when every digit after the second is 0. */
  lemma {:induction false} TwoSignificantExact(v: nat)
    ensures TwoSignificant(v) == v <==> forall i :: 2 <= i < |Digits(v)| ==> Digits(v)[i] == 0
    decreases v
  {
    var ds := Digits(v);
    if v >= 100 {
      var ds' := Digits(v / 10);
      assert ds == ds' + [v % 10];
      TwoSignificantExact(v / 10);
      if TwoSignificant(v) == v {
        assert forall i :: 2 <= i < |ds| ==> ds[i] == 0 by {
          forall i | 2 <= i < |ds|
            ensures ds[i] == 0
          {
            if i < |ds'| {
              assert ds[i] == ds'[i];
            }
          }
        }
      } else {
        if v % 10 == 0 {
          var i :| 2 <= i < |ds'| && ds'[i] != 0;
          assert ds[i] == ds'[i];
        } else {
          assert ds[|ds| - 1] != 0;
        }
      }
    } else if v >= 10 {
      assert Digits(v / 10) == [v / 10];
      assert |ds| == 2;
    }
  }

  /**
   * The colour code the bands are evidently meant to give: the multiplier
   * is 10^(digits - 2), that is palette entry digits - 2, and Gold (0.1)
   * for a one-digit value, whose second band is 0. Values of more than 11
   * digits have no multiplier colour.
   */
  function ColorCodeIntended(input: Option<int>): (r: Result<Code, CodeError>)
    ensures r == Err(InvalidValue) <==> input.None? || input.value < 1
    ensures input.Some? && input.value >= 1 ==> (r == Err(MissingColour) <==> input.value >= Pow10(11))
    ensures r.Ok? ==> r.value.first < 10 && r.value.second < 10 && r.value.multiplier <= GoldIndex
  {
    if input.None? || input.value < 1 then Err(InvalidValue)
    else
      var ds := Digits(input.value);
      DigitsLength(input.value);
      if |ds| > 11 then
        assert Pow10(11) <= Pow10(|ds| - 1) by { Pow10Monotone(11, |ds| - 1); }
        Err(MissingColour)
      else
        assert Pow10(|ds|) <= Pow10(11) by { Pow10Monotone(|ds|, 11); }
        if |ds| == 1 then Ok(Code(ds[0], 0, GoldIndex))
        else Ok(Code(ds[0], ds[1], |ds| - 2))
  }

  /**
   * The resistance the palette reads from a code's three colours: the
   * two-digit number times 10^m for a digit colour m, a tenth of it for
   * Gold and a hundredth for Silver.
   */
  function CodeValue(c: Code): (v: real)
    requires c.first < 10 && c.second < 10 && c.multiplier < |BandColors|
    ensures var n := 10 * c.first + c.second;
      v == if c.multiplier < 10 then (n * Pow10(c.multiplier)) as real
           else if c.multiplier == GoldIndex then n as real / 10.0
           else n as real / 100.0
  {
    PaletteValues();
    PaletteDecoding(c.first, c.second, c.multiplier);
    ResistorValue(BandColors[c.first].bandVal.value, BandColors[c.second].bandVal.value,
                  BandColors[c.multiplier].multVal.value)
  }

  /** A whole multiplier colour m reads the two-digit number followed by m zeros. */
  lemma WholeCodeValue(a: nat, b: nat, m: nat)
    requires a < 10 && b < 10 && m < 10
    ensures CodeValue(Code(a, b, m)) == Shifted(10 * a + b, m) as real
  {
    PaletteDecoding(a, b, m);
    ShiftedIsProduct(10 * a + b, m);
  }

  /** A digit, a 0 and Gold read the digit itself. */
  lemma GoldCodeValue(a: nat)
    requires a < 10
    ensures CodeValue(Code(a, 0, GoldIndex)) == a as real
  {
    PaletteDecoding(a, 0, GoldIndex);
  }

  /** The intended code of a value of at most 11 digits, digit by digit. */
  lemma IntendedCode(v: nat)
    requires 1 <= v < Pow10(11)
    ensures ColorCodeIntended(Some(v)).Ok?
    ensures |Digits(v)| == 1 ==> ColorCodeIntended(Some(v)).value == Code(v, 0, GoldIndex)
    ensures |Digits(v)| >= 2 ==>
      |Digits(v)| - 2 < 10 && ColorCodeIntended(Some(v)).value == Code(Digits(v)[0], Digits(v)[1], |Digits(v)| - 2)
  {
  }

  /** The as-written code of a value of at most 10 digits, digit by digit. */
  lemma AsWrittenCode(v: nat)
    requires 1 <= v < Pow10(10)
    ensures ColorCodeAsWritten(Some(v)).Ok?
    ensures |Digits(v)| == 1 ==> ColorCodeAsWritten(Some(v)).value == Code(v, 0, 0)
    ensures |Digits(v)| >= 2 ==>
      |Digits(v)| - 1 < 10 && ColorCodeAsWritten(Some(v)).value == Code(Digits(v)[0], Digits(v)[1], |Digits(v)| - 1)
  {
  }

  /** The code of a value's two leading digits with multiplier m reads them followed by m zeros. */
  lemma LeadingCodeValue(v: nat, m: nat)
    requires |Digits(v)| >= 2 && m < 10
    ensures CodeValue(Code(Digits(v)[0], Digits(v)[1], m)) == Shifted(10 * Digits(v)[0] + Digits(v)[1], m) as real
  {
    WholeCodeValue(Digits(v)[0], Digits(v)[1], m);
  }

  /**
   * Decoding the intended code of v gives v cut to two significant digits,
   * so v itself exactly when the digits after its second are all 0.
   */
  lemma IntendedRoundTrip(v: nat)
    requires 1 <= v < Pow10(11)
    ensures ColorCodeIntended(Some(v)).Ok?
    ensures CodeValue(ColorCodeIntended(Some(v)).value) == TwoSignificant(v) as real
    ensures CodeValue(ColorCodeIntended(Some(v)).value) == v as real <==>
      forall i :: 2 <= i < |Digits(v)| ==> Digits(v)[i] == 0
  {
    IntendedCode(v);
    TwoSignificantExact(v);
    if |Digits(v)| == 1 {
      GoldCodeValue(v);
    } else {
      IntendedLeadingValue(v);
    }
  }

  /** For n >= 2 digits the intended multiplier n - 2 restores v cut to two digits. */
  lemma IntendedLeadingValue(v: nat)
    requires 2 <= |Digits(v)| <= 11
    ensures CodeValue(Code(Digits(v)[0], Digits(v)[1], |Digits(v)| - 2)) == TwoSignificant(v) as real
  {
    LeadingCodeValue(v, |Digits(v)| - 2);
    TwoSignificantLeading(v);
  }

  /**
   * Decoding the as-written code of v gives ten times v cut to two
   * significant digits: every multiplier is one power of ten too large.
   */
  lemma AsWrittenTenTimesTooLarge(v: nat)
    requires 1 <= v < Pow10(10)
    ensures ColorCodeAsWritten(Some(v)).Ok?
    ensures CodeValue(ColorCodeAsWritten(Some(v)).value) == (10 * TwoSignificant(v)) as real
  {
    AsWrittenCode(v);
    if |Digits(v)| == 1 {
      WholeCodeValue(v, 0, 0);
    } else {
      AsWrittenLeadingValue(v);
    }
  }

  /** For n >= 2 digits the as-written multiplier n - 1 gives ten times v cut to two digits. */
  lemma AsWrittenLeadingValue(v: nat)
    requires 2 <= |Digits(v)| <= 10
    ensures CodeValue(Code(Digits(v)[0], Digits(v)[1], |Digits(v)| - 1)) == (10 * TwoSignificant(v)) as real
  {
    var k, n := 10 * Digits(v)[0] + Digits(v)[1], |Digits(v)| - 2;
    LeadingCodeValue(v, n + 1);
    TwoSignificantLeading(v);
    assert Shifted(k, n + 1) == 10 * TwoSignificant(v);
  }

  /** 470 ohms comes out as Yellow, Violet, Red, which reads 4700 ohms. */
  lemma FourSeventyAsWritten()
    ensures ColorCodeAsWritten(Some(470)) == Ok(Code(4, 7, 2))
    ensures CodeValue(Code(4, 7, 2)) == 4700.0
    ensures ColorCodeIntended(Some(470)) == Ok(Code(4, 7, 1))
    ensures CodeValue(Code(4, 7, 1)) == 470.0
  {
    assert Digits(470) == [4, 7, 0];
    PaletteDecoding(4, 7, 2);
    PaletteDecoding(4, 7, 1);
  }
}
