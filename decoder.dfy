/**
 * The decoder: `applyDetectedBands` writes the values of the first bands
 * of a scan into the page's four band selections, and `generateResistorValue`
 * turns the selections into a resistance, `(digit1 * 10 + digit2) * multiplier`.
 * The selections are modelled as a small object holding the numbers last
 * written into them.
 */
module Decoder {
  import opened Wrappers
  import opened Palette
  import opened Runs

  /**
   * The resistance of two digits and a multiplier: dividing it by a
   * non-zero multiplier gives back the two-digit number.
   */
  function ResistorValue(digit1: int, digit2: int, multiplier: real): (v: real)
    ensures multiplier != 0.0 ==> v / multiplier == (digit1 * 10 + digit2) as real
  {
    (digit1 * 10 + digit2) as real * multiplier
  }

  /**
   * `parseInt` of the decimal text of a non-negative number: the digits
   * before the decimal point.
   */
  function ParseIntOf(x: real): (n: int)
    requires x >= 0.0
    ensures 0 <= n && n as real <= x < n as real + 1.0
  {
    x.Floor
  }

  /**
   * The resistance as `generateResistorValue` computes it: every
   * selection, the multiplier included, goes through `parseInt` first. It
   * is the resistance under the multiplier's whole part: the same for a
   * whole multiplier, and 0 for a multiplier below 1.
   */
  function ResistorValueAsWritten(digit1: int, digit2: int, multiplier: real): (v: real)
    requires multiplier >= 0.0
    ensures v == ResistorValue(digit1, digit2, multiplier.Floor as real)
    ensures multiplier.Floor as real == multiplier ==> v == ResistorValue(digit1, digit2, multiplier)
    ensures multiplier < 1.0 ==> v == 0.0
  {
    (digit1 * 10 + digit2) as real * ParseIntOf(multiplier) as real
  }

  /**
   * The resistance of two digit colours and a multiplier colour of the
   * palette: the two-digit number times 10^m for the ten digit colours,
   * divided by 10 for Gold and by 100 for Silver.
   */
  lemma PaletteDecoding(i: nat, j: nat, m: nat)
    requires i < 10 && j < 10 && m < |BandColors|
    ensures BandColors[i].bandVal.Some? && BandColors[j].bandVal.Some? && BandColors[m].multVal.Some?
    ensures var v := ResistorValue(BandColors[i].bandVal.value, BandColors[j].bandVal.value, BandColors[m].multVal.value);
      v == if m < 10 then ((10 * i + j) * Pow10(m)) as real
           else if m == GoldIndex then (10 * i + j) as real / 10.0
           else (10 * i + j) as real / 100.0
  {
    PaletteValues();
    var mult := BandColors[m].multVal.value;
    assert BandColors[i].bandVal.value == i && BandColors[j].bandVal.value == j;
    if m < 10 {
      assert mult == Pow10(m) as real;
      WholeValue(i, j, Pow10(m));
    } else {
      assert mult == if m == GoldIndex then 0.1 else 0.01;
      FractionalValue(i, j, mult);
    }
  }

  /** Two digits under a whole multiplier p: the integer (10*d1 + d2)*p. */
  lemma WholeValue(d1: int, d2: int, p: int)
    ensures ResistorValue(d1, d2, p as real) == ((10 * d1 + d2) * p) as real
  {
  }

  /** Two digits under the multipliers 0.1 and 0.01: a tenth and a hundredth of the two-digit number. */
  lemma FractionalValue(d1: int, d2: int, mult: real)
    ensures mult == 0.1 ==> ResistorValue(d1, d2, mult) == (10 * d1 + d2) as real / 10.0
    ensures mult == 0.01 ==> ResistorValue(d1, d2, mult) == (10 * d1 + d2) as real / 100.0
  {
  }

  /** Brown, Black, Red reads 10 * 100 = 1000 ohms. */
  lemma BrownBlackRed()
    ensures ResistorValue(BandColors[1].bandVal.value, BandColors[0].bandVal.value, BandColors[2].multVal.value) == 1000.0
  {
    PaletteDecoding(1, 0, 2);
  }

  /** For the ten whole multipliers, reading the multiplier with `parseInt` changes nothing. */
  lemma AsWrittenAgreesOnWholeMultipliers(d1: int, d2: int, m: nat)
    requires m < 10
    ensures ResistorValueAsWritten(d1, d2, Pow10(m) as real) == ResistorValue(d1, d2, Pow10(m) as real)
  {
  }

  /**
   * Gold (0.1) and Silver (0.01) multipliers are read by `parseInt` as 0,
   * so any non-zero pair of digits gives a resistance of 0: Brown, Black,
   * Gold gives 0 instead of 1.
   */
  lemma FractionalMultiplierLost(d1: int, d2: int, m: nat)
    requires m == GoldIndex || m == 11
    requires d1 * 10 + d2 != 0
    ensures BandColors[m].multVal.Some?
    ensures ResistorValueAsWritten(d1, d2, BandColors[m].multVal.value) == 0.0
    ensures ResistorValue(d1, d2, BandColors[m].multVal.value) != 0.0
  {
    PaletteValues();
  }

  /**
   * What `generateResistorValue` shows as written: nothing when the
   * multiplier reads as 0, since the swatch lookup is then `colorCodes[NaN]`
   * and reading its colour throws; otherwise the resistance computed from
   * the whole parts of the selections.
   */
  function DisplayAsWritten(digit1: int, digit2: int, multiplier: real): (shown: Option<real>)
    requires multiplier >= 0.0
    ensures shown.None? <==> multiplier < 1.0
    ensures shown.Some? ==> shown.value == ResistorValue(digit1, digit2, multiplier.Floor as real)
  {
    if ParseIntOf(multiplier) == 0 then None else Some(ResistorValueAsWritten(digit1, digit2, multiplier))
  }

  /**
   * With a Gold or Silver multiplier the display as written shows nothing,
   * while the resistance those colours stand for is not 0.
   */
  lemma FractionalMultiplierNotShown(d1: int, d2: int, m: nat)
    requires m == GoldIndex || m == 11
    requires d1 * 10 + d2 != 0
    ensures BandColors[m].multVal.Some?
    ensures DisplayAsWritten(d1, d2, BandColors[m].multVal.value) == None
    ensures ResistorValue(d1, d2, BandColors[m].multVal.value) != 0.0
  {
    PaletteValues();
  }

  /** Brown, Black, Gold: 1 ohm intended, a resistance of 0 as written. */
  lemma BrownBlackGold()
    ensures ResistorValue(1, 0, 0.1) == 1.0
    ensures ResistorValueAsWritten(1, 0, 0.1) == 0.0
  {
  }

  /**
   * The page's four band selections (`color1` … `color4`): two digits, the
   * multiplier and the tolerance in percent, as last written.
   */
  class Selections {
    var digit1: int
    var digit2: int
    var multiplier: real
    var tolerance: int

    /** Selections holding the given values. */
    constructor (d1: int, d2: int, mult: real, tol: int)
      ensures digit1 == d1 && digit2 == d2 && multiplier == mult && tolerance == tol
    {
      digit1, digit2, multiplier, tolerance := d1, d2, mult, tol;
    }

    /**
     * `applyDetectedBands`: with fewer than three bands nothing changes and
     * false is returned. Otherwise band 0 and band 1 set the digits, band 2
     * the multiplier and band 3, when there is one, the tolerance, each only
     * when its colour has the needed value and otherwise leaving the
     * selection as it was; the resulting value is then shown. The value
     * shown is the intended one: as written, a multiplier below 1 makes the
     * display throw instead (DisplayAsWritten).
     */
    method ApplyDetectedBands(bands: seq<Run>) returns (applied: bool, shown: Option<real>)
      modifies this
      ensures applied <==> |bands| >= 3
      ensures !applied ==> shown == None && unchanged(this)
      ensures applied ==>
        var b1, b2, b3 := bands[0].color.entry, bands[1].color.entry, bands[2].color.entry;
        && digit1 == (if b1.bandVal.Some? then b1.bandVal.value else old(digit1))
        && digit2 == (if b2.bandVal.Some? then b2.bandVal.value else old(digit2))
        && multiplier == (if b3.multVal.Some? then b3.multVal.value else old(multiplier))
        && tolerance == (if |bands| >= 4 && bands[3].color.entry.tolVal.Some?
                         then bands[3].color.entry.tolVal.value else old(tolerance))
        && shown == Some(ResistorValue(digit1, digit2, multiplier))
    {
      if |bands| < 3 {
        return false, None;
      }
      var b1, b2, b3 := bands[0].color.entry, bands[1].color.entry, bands[2].color.entry;
      var b4: Option<BandColor> := if |bands| >= 4 then Some(bands[3].color.entry) else None;
      if b1.bandVal.Some? {
        digit1 := b1.bandVal.value;
      }
      if b2.bandVal.Some? {
        digit2 := b2.bandVal.value;
      }
      if b3.multVal.Some? {
        multiplier := b3.multVal.value;
      }
      if b4.Some? && b4.value.tolVal.Some? {
        tolerance := b4.value.tolVal.value;
      }
      return true, Some(ResistorValue(digit1, digit2, multiplier));
    }
  }
}
