/**
 * The fixed reference palette of the camera scanner (`BAND_COLORS`):
 * twelve colour bands in declaration order, each with the digit it stands
 * for, its multiplier and its tolerance, and its reference RGB triple.
 */
module Palette {
  import opened Wrappers

  /** One 8-bit channel value, as held by a canvas pixel buffer. */
  type Byte = x: int | 0 <= x < 256

  /** A device RGB colour. */
  datatype Rgb = Rgb(r: Byte, g: Byte, b: Byte)

  /**
   * One palette entry. `bandVal` and `tolVal` are `None` where the source
   * has `null`; `multVal` is optional because the decoder tests it for
   * `null`, although every entry of the table has one.
   */
  datatype BandColor = BandColor(
    name: string,
    bandVal: Option<nat>,
    multVal: Option<real>,
    tolVal: Option<nat>,
    rgb: Rgb)

  /** 10 to the power n. */
  function Pow10(n: nat): (p: nat)
    ensures p >= 1
  {
    if n == 0 then 1 else 10 * Pow10(n - 1)
  }

  /** The palette, in the order the classifier scans it. */
  const BandColors: seq<BandColor> := [
    BandColor("Black",  Some(0), Some(1.0),          None,     Rgb(0, 0, 0)),
    BandColor("Brown",  Some(1), Some(10.0),         Some(1),  Rgb(150, 75, 0)),
    BandColor("Red",    Some(2), Some(100.0),        Some(2),  Rgb(255, 0, 0)),
    BandColor("Orange", Some(3), Some(1000.0),       None,     Rgb(255, 165, 0)),
    BandColor("Yellow", Some(4), Some(10000.0),      None,     Rgb(255, 255, 0)),
    BandColor("Green",  Some(5), Some(100000.0),     None,     Rgb(0, 128, 0)),
    BandColor("Blue",   Some(6), Some(1000000.0),    None,     Rgb(0, 0, 255)),
    BandColor("Violet", Some(7), Some(10000000.0),   None,     Rgb(143, 0, 255)),
    BandColor("Gray",   Some(8), Some(100000000.0),  None,     Rgb(128, 128, 128)),
    BandColor("White",  Some(9), Some(1000000000.0), None,     Rgb(255, 255, 255)),
    BandColor("Gold",   None,    Some(0.1),          Some(5),  Rgb(218, 165, 32)),
    BandColor("Silver", None,    Some(0.01),         Some(10), Rgb(192, 192, 192))
  ]

  /** Index of the Gold entry (multiplier 0.1). */
  const GoldIndex: nat := 10

  /** The palette's shape: twelve entries with pairwise distinct names. */
  lemma PaletteNamesDistinct()
    ensures |BandColors| == 12
    ensures forall i, j :: 0 <= i < j < |BandColors| ==> BandColors[i].name != BandColors[j].name
  {
    forall i, j | 0 <= i < j < |BandColors|
      ensures BandColors[i].name != BandColors[j].name
    {
      // names are told apart by their first letters or their lengths
      var a, b := BandColors[i].name, BandColors[j].name;
      assert a[0] != b[0] || |a| != |b| || a[2] != b[2];
    }
  }

  /**
   * The digit colours Black..White stand for their own position as a digit
   * and for 10^position as a multiplier; Gold and Silver carry no digit but
   * a tolerance, and multipliers 0.1 and 0.01.
   */
  lemma PaletteValues()
    ensures |BandColors| == 12
    ensures forall i :: 0 <= i < 10 ==>
      BandColors[i].bandVal == Some(i) && BandColors[i].multVal == Some(Pow10(i) as real)
    ensures BandColors[GoldIndex].name == "Gold" && BandColors[GoldIndex].bandVal == None
      && BandColors[GoldIndex].tolVal == Some(5) && BandColors[GoldIndex].multVal == Some(0.1)
    ensures BandColors[11].name == "Silver" && BandColors[11].bandVal == None
      && BandColors[11].tolVal == Some(10) && BandColors[11].multVal == Some(0.01)
    ensures forall i :: 0 <= i < |BandColors| ==> BandColors[i].multVal.Some?
    ensures forall i :: 0 <= i < |BandColors| ==> (BandColors[i].bandVal.Some? <==> i < 10)
  {
    assert Pow10(0) == 1 && Pow10(1) == 10 && Pow10(2) == 100 && Pow10(3) == 1000;
    assert Pow10(4) == 10000 && Pow10(5) == 100000 && Pow10(6) == 1000000;
    assert Pow10(7) == 10000000 && Pow10(8) == 100000000 && Pow10(9) == 1000000000;
  }
}
