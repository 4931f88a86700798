/**
 * The scan-line sampler (first half of `scanResistorBands`): picks a strip
 * of about 20% of the frame height, centred vertically, and reduces it to one
 * colour per column, each channel the rounded mean over the strip's rows.
 * The strip is an RGBA byte buffer of width w, row after row, four bytes per
 * pixel, as `getImageData` returns it.
 */
module Sampler {
  import opened Palette

  /**
   * `Math.round(h * 0.20)`: the integer nearest to h/5 (h/5 is never
   * exactly halfway between two integers).
   */
  function StripHeight(h: nat): (bandH: nat)
    ensures 10 * bandH <= 2 * h + 5 < 10 * bandH + 10
    ensures bandH <= h
  {
    (2 * h + 5) / 10
  }

  /**
   * `Math.round(h / 2 - bandH / 2)`: the first row of the strip. The strip
   * lies inside the frame, and its centre is within half a row of h/2.
   */
  function StripTop(h: nat): (y0: nat)
    ensures y0 + StripHeight(h) <= h
    ensures h <= 2 * y0 + StripHeight(h) <= h + 1
  {
    (h - StripHeight(h) + 1) / 2
  }

  /** Position of channel k of the pixel at (x, row) in a w-wide RGBA strip. */
  function PixelIndex(w: nat, row: nat, x: nat, k: nat): nat
  {
    (row * w + x) * 4 + k
  }

  /** Number of bytes in an RGBA strip of w columns and `rows` rows. */
  function StripSize(w: nat, rows: nat): nat
  {
    rows * w * 4
  }

  /** Every index the sampling loop reads, `(row*w + x)*4 + k`, is in the buffer. */
  lemma IndexInBounds(w: nat, rows: nat, row: nat, x: nat, k: nat)
    requires row < rows && x < w && k < 4
    ensures PixelIndex(w, row, x, k) < StripSize(w, rows)
  {
    assert row * w + x < (row + 1) * w;
    assert (row + 1) * w <= rows * w by {
      assert row + 1 <= rows;
    }
  }

  /** A strip of fewer rows is a prefix-sized buffer. */
  lemma StripSizeMonotone(w: nat, rows: nat, more: nat)
    requires rows <= more
    ensures StripSize(w, rows) <= StripSize(w, more)
  {
    assert rows * w <= more * w;
  }

  /** The rows of a frame from row y0 on start StripSize(w, y0) bytes in. */
  lemma RowOffset(w: nat, y0: nat, row: nat, x: nat, k: nat)
    ensures PixelIndex(w, y0 + row, x, k) == StripSize(w, y0) + PixelIndex(w, row, x, k)
  {
    assert (y0 + row) * w == y0 * w + row * w;
  }

  /** Rows y0 up to y0 + rows span StripSize(w, rows) bytes. */
  lemma StripSizeAdd(w: nat, y0: nat, rows: nat)
    ensures StripSize(w, y0 + rows) == StripSize(w, y0) + StripSize(w, rows)
  {
    assert (y0 + rows) * w == y0 * w + rows * w;
  }

  /**
   * Every pixel of the `rows`-row strip equals the pixel in the same column,
   * y0 rows further down, of the frame.
   */
  ghost predicate CopiesRows(strip: seq<Byte>, frame: seq<Byte>, w: nat, y0: nat, rows: nat)
  {
    && |strip| == StripSize(w, rows)
    && StripSize(w, y0 + rows) <= |frame|
    && forall row: nat, x: nat, k: nat :: row < rows && x < w && k < 4 ==>
      (IndexInBounds(w, rows, row, x, k);
       RowOffset(w, y0, row, x, k);
       StripSizeAdd(w, y0, rows);
       strip[PixelIndex(w, row, x, k)] == frame[PixelIndex(w, y0 + row, x, k)])
  }

  /** Slicing out the bytes of rows y0 up to y0 + rows gives those rows, pixel by pixel. */
  lemma RowsCopied(frame: seq<Byte>, w: nat, y0: nat, rows: nat)
    requires StripSize(w, y0 + rows) <= |frame|
    ensures StripSize(w, y0) <= StripSize(w, y0 + rows)
    ensures CopiesRows(frame[StripSize(w, y0)..StripSize(w, y0 + rows)], frame, w, y0, rows)
  {
    StripSizeAdd(w, y0, rows);
    var strip := frame[StripSize(w, y0)..StripSize(w, y0 + rows)];
    forall row: nat, x: nat, k: nat | row < rows && x < w && k < 4
      ensures PixelIndex(w, row, x, k) < |strip|
      ensures strip[PixelIndex(w, row, x, k)] == frame[PixelIndex(w, y0 + row, x, k)]
    {
      IndexInBounds(w, rows, row, x, k);
      RowOffset(w, y0, row, x, k);
    }
  }

  /** The `rows` rows of a w-wide RGBA frame that start at row y0. */
  function Rows(frame: seq<Byte>, w: nat, y0: nat, rows: nat): (strip: seq<Byte>)
    requires StripSize(w, y0 + rows) <= |frame|
    ensures CopiesRows(strip, frame, w, y0, rows)
  {
    RowsCopied(frame, w, y0, rows);
    frame[StripSize(w, y0)..StripSize(w, y0 + rows)]
  }

  /**
   * `getImageData(0, y0, w, bandH)` on a w-by-h RGBA frame: the strip of
   * StripHeight(h) rows from row StripTop(h), every pixel copied from the
   * same column of the corresponding frame row.
   */
  function Strip(frame: seq<Byte>, w: nat, h: nat): (strip: seq<Byte>)
    requires |frame| == StripSize(w, h)
    ensures CopiesRows(strip, frame, w, StripTop(h), StripHeight(h))
  {
    StripSizeMonotone(w, StripTop(h) + StripHeight(h), h);
    Rows(frame, w, StripTop(h), StripHeight(h))
  }

  /**
   * The sum of channel k of column x over the first `rows` rows of a w-wide
   * RGBA strip; it is at most 255 per row.
   */
  function ColumnSum(data: seq<Byte>, w: nat, x: nat, k: nat, rows: nat): (s: int)
    requires x < w && k < 4 && StripSize(w, rows) <= |data|
    ensures 0 <= s <= 255 * rows
  {
    if rows == 0 then 0
    else
      IndexInBounds(w, rows, rows - 1, x, k);
      StripSizeMonotone(w, rows - 1, rows);
      ColumnSum(data, w, x, k, rows - 1) + data[PixelIndex(w, rows - 1, x, k)]
  }

  /**
   * `Math.round(s / n)` for s >= 0: the integer nearest to s/n, halves
   * rounded up. A mean of bytes is a byte.
   */
  function RoundedMean(s: int, n: nat): (r: int)
    requires n > 0
    ensures 2 * n * r - n <= 2 * s < 2 * n * r + n
    ensures 0 <= s <= 255 * n ==> 0 <= r <= 255
  {
    var r := (2 * s + n) / (2 * n);
    RoundedMeanBounds(s, n, r);
    r
  }

  /** The quotient (2s + n) / 2n lies within half a step of s/n. */
  lemma RoundedMeanBounds(s: int, n: nat, r: int)
    requires n > 0 && r == (2 * s + n) / (2 * n)
    ensures 2 * n * r - n <= 2 * s < 2 * n * r + n
    ensures 0 <= s <= 255 * n ==> 0 <= r <= 255
  {
    var d := 2 * n;
    assert 2 * s + n == d * r + (2 * s + n) % d;
    assert d * r == 2 * n * r;
    if 0 <= s <= 255 * n {
      if r >= 256 {
        MulMonotone(256, r, n);
      } else if r < 0 {
        MulMonotone(r, -1, n);
      }
    }
  }

  /** Multiplying by a non-negative n keeps the order. */
  lemma MulMonotone(a: int, b: int, n: nat)
    requires a <= b
    ensures a * n <= b * n
  {
    assert b * n - a * n == (b - a) * n;
  }

  /**
   * The averaged colour of column x of a strip of bandH rows: each channel
   * is the integer nearest to the mean of that channel down the column.
   */
  function ColumnMean(data: seq<Byte>, w: nat, bandH: nat, x: nat): (mean: Rgb)
    requires bandH > 0 && x < w && |data| == StripSize(w, bandH)
    ensures 2 * bandH * mean.r - bandH <= 2 * ColumnSum(data, w, x, 0, bandH) < 2 * bandH * mean.r + bandH
    ensures 2 * bandH * mean.g - bandH <= 2 * ColumnSum(data, w, x, 1, bandH) < 2 * bandH * mean.g + bandH
    ensures 2 * bandH * mean.b - bandH <= 2 * ColumnSum(data, w, x, 2, bandH) < 2 * bandH * mean.b + bandH
  {
    Rgb(RoundedMean(ColumnSum(data, w, x, 0, bandH), bandH),
        RoundedMean(ColumnSum(data, w, x, 1, bandH), bandH),
        RoundedMean(ColumnSum(data, w, x, 2, bandH), bandH))
  }

  /**
   * The nested sampling loop: exactly w colours, in column order, each
   * the rounded per-channel mean of its column.
   */
  method SampleColumns(data: seq<Byte>, w: nat, bandH: nat) returns (colColors: seq<Rgb>)
    requires bandH > 0
    requires |data| == StripSize(w, bandH)
    ensures |colColors| == w
    ensures forall x :: 0 <= x < w ==> colColors[x] == ColumnMean(data, w, bandH, x)
  {
    colColors := [];
    for x := 0 to w
      invariant |colColors| == x
      invariant forall i :: 0 <= i < x ==> colColors[i] == ColumnMean(data, w, bandH, i)
    {
      var rSum: int, gSum: int, bSum: int := 0, 0, 0;
      for row := 0 to bandH
        invariant rSum == ColumnSum(data, w, x, 0, row)
        invariant gSum == ColumnSum(data, w, x, 1, row)
        invariant bSum == ColumnSum(data, w, x, 2, row)
      {
        StripSizeMonotone(w, row + 1, bandH);
        IndexInBounds(w, row + 1, row, x, 0);
        IndexInBounds(w, row + 1, row, x, 1);
        IndexInBounds(w, row + 1, row, x, 2);
        var idx := PixelIndex(w, row, x, 0);
        rSum := rSum + data[idx];
        gSum := gSum + data[idx + 1];
        bSum := bSum + data[idx + 2];
      }
      colColors := colColors + [Rgb(RoundedMean(rSum, bandH), RoundedMean(gSum, bandH), RoundedMean(bSum, bandH))];
    }
  }
}
