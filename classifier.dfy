/**
 * Nearest-palette-entry classification (`classifyColor`). The perceptual
 * distance (CIE L*a*b* Euclidean distance in the source) is abstract: it is
 * given as a function of the sampled colour and a palette index. What is
 * modelled and proved is the search: a scan of the palette in declaration
 * order that keeps an entry only when it is strictly closer, so the first of
 * several equally close entries wins.
 */
module Classifier {
  import opened Wrappers
  import opened Palette

  /** Distance from a sampled colour to the palette entry at an index. */
  type Distance = (Rgb, nat) -> real

  /** A classified sample: the matched palette entry and its distance. */
  datatype Classified = Classified(entry: BandColor, distance: real)

  /** The distances from c to every palette entry, in palette order. */
  function Distances(c: Rgb, dist: Distance): (ds: seq<real>)
    ensures |ds| == |BandColors|
    ensures forall j :: 0 <= j < |ds| ==> ds[j] == dist(c, j)
  {
    seq(|BandColors|, j requires 0 <= j < |BandColors| => dist(c, j))
  }

  /**
   * The position of the first minimum of ds: no element is smaller, and
   * every element before it is strictly larger.
   */
  function FirstMinIndex(ds: seq<real>): (k: nat)
    requires |ds| > 0
    ensures k < |ds|
    ensures forall j :: 0 <= j < |ds| ==> ds[k] <= ds[j]
    ensures forall j :: 0 <= j < k ==> ds[k] < ds[j]
  {
    if |ds| == 1 then 0
    else
      var k := FirstMinIndex(ds[..|ds| - 1]);
      if ds[|ds| - 1] < ds[k] then |ds| - 1 else k
  }

  /** The palette index the classifier picks for c. */
  function NearestIndex(c: Rgb, dist: Distance): (k: nat)
    ensures k < |BandColors|
    ensures forall j :: 0 <= j < |BandColors| ==> dist(c, k) <= dist(c, j)
    ensures forall j :: 0 <= j < k ==> dist(c, k) < dist(c, j)
  {
    var ds := Distances(c, dist);
    FirstMinIndex(ds)
  }

  /**
   * The classification of c: some palette entry with its distance, at
   * least as close as every entry and strictly closer than every earlier
   * one (the first of several equally close entries).
   */
  function Nearest(c: Rgb, dist: Distance): (res: Classified)
    ensures exists k ::
      && 0 <= k < |BandColors| && res.entry == BandColors[k] && res.distance == dist(c, k)
      && (forall j :: 0 <= j < |BandColors| ==> dist(c, k) <= dist(c, j))
      && (forall j :: 0 <= j < k ==> dist(c, k) < dist(c, j))
  {
    var k := NearestIndex(c, dist);
    Classified(BandColors[k], dist(c, k))
  }

  /**
   * The two properties of NearestIndex determine it: any index that is
   * at least as close as every entry and strictly closer than every earlier
   * one is the one the classifier picks.
   */
  lemma NearestIndexUnique(c: Rgb, dist: Distance, k: nat)
    requires k < |BandColors|
    requires forall j :: 0 <= j < |BandColors| ==> dist(c, k) <= dist(c, j)
    requires forall j :: 0 <= j < k ==> dist(c, k) < dist(c, j)
    ensures NearestIndex(c, dist) == k
  {
  }

  /**
   * `classifyColor`: scans the palette in order, starting from an infinite
   * best distance, and replaces the best entry only on a strictly smaller
   * distance.
   */
  method ClassifyColor(c: Rgb, dist: Distance) returns (res: Classified)
    ensures res == Nearest(c, dist)
    ensures res.entry in BandColors
    ensures forall j :: 0 <= j < |BandColors| ==> res.distance <= dist(c, j)
  {
    ghost var ds := Distances(c, dist);
    var bestDist: Option<real> := None;  // None stands for Infinity
    var best := 0;
    for i := 0 to |BandColors|
      invariant bestDist.None? <==> i == 0
      invariant bestDist.Some? ==>
        best < i && bestDist.value == dist(c, best) && best == FirstMinIndex(ds[..i])
    {
      var d := dist(c, i);
      assert ds[..i + 1][..i] == ds[..i];
      if bestDist.None? || d < bestDist.value {
        bestDist, best := Some(d), i;
      }
    }
    assert ds[..|BandColors|] == ds;
    res := Classified(BandColors[best], bestDist.value);
  }

  /** `classified = colColors.map(classifyColor)`: one match per column. */
  function ClassifyAll(cols: seq<Rgb>, dist: Distance): (cs: seq<Classified>)
    ensures |cs| == |cols|
    ensures forall x :: 0 <= x < |cols| ==> cs[x] == Nearest(cols[x], dist)
  {
    seq(|cols|, x requires 0 <= x < |cols| => Nearest(cols[x], dist))
  }
}
