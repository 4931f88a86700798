/**
 * The band segmenter (the rest of `scanResistorBands`): keeps the runs that
 * are wide enough, takes the most frequent colour as the resistor body, falls
 * back to the second most frequent one when that yields too few bands, drops
 * the body's runs and merges bands of one colour split by a small gap.
 */
module Segmenter {
  import opened Wrappers
  import opened Palette
  import opened Classifier
  import opened Sampler
  import opened Runs
  import opened BodyDetection
  import opened BandMerge

  /**
   * `Math.round(w * 0.015)`: the integer nearest to 1.5% of the width,
   * halves rounded up.
   */
  function MinBandWidth(w: nat): (minW: nat)
    ensures 200 * minW <= 3 * w + 100 < 200 * minW + 200
  {
    (3 * w + 100) / 200
  }

  /**
   * `runs.filter(r => r.len >= minBandWidth)`: exactly the runs at least
   * minW wide, in their original left-to-right order.
   */
  function Significant(runs: seq<Run>, minW: nat): (kept: seq<Run>)
    ensures |kept| <= |runs|
    ensures forall r :: r in kept <==> r in runs && r.len >= minW
    ensures Ordered(runs) ==> Ordered(kept)
  {
    if runs == [] then []
    else (if runs[0].len >= minW then [runs[0]] else []) + Significant(runs[1..], minW)
  }

  /**
   * `significantRuns.filter(r => r.name !== body)`: exactly the runs of
   * another colour than the body, in their original order.
   */
  function WithoutName(runs: seq<Run>, body: string): (kept: seq<Run>)
    ensures |kept| <= |runs|
    ensures forall r :: r in kept <==> r in runs && r.name != body
    ensures Ordered(runs) ==> Ordered(kept)
  {
    if runs == [] then []
    else (if runs[0].name != body then [runs[0]] else []) + WithoutName(runs[1..], body)
  }

  /**
   * Body choice: the name of the first sorted entry, unless it leaves
   * fewer than three bands, there is more than one colour, and the second
   * sorted entry leaves at least three.
   */
  ghost function BodyChoice(entries: seq<Entry>, significantRuns: seq<Run>): string
    requires |entries| > 0
  {
    var sorted := SortDesc(entries);
    if |WithoutName(significantRuns, sorted[0].key)| < 3 && |entries| > 1
      && |WithoutName(significantRuns, sorted[1].key)| >= 3
    then sorted[1].key else sorted[0].key
  }

  /** `runs.forEach(b => target.push(b))`: the runs pushed one by one onto the end of target. */
  method PushAll(target: seq<Run>, runs: seq<Run>) returns (pushed: seq<Run>)
    ensures pushed == target + runs
  {
    pushed := target;
    for i := 0 to |runs|
      invariant pushed == target + runs[..i]
    {
      pushed := pushed + [runs[i]];
    }
    assert runs[..|runs|] == runs;
  }

  /**
   * The body choice of `scanResistorBands` on sorted pixel counts; the
   * bands are then the significant runs of any other colour than the
   * chosen body.
   */
  method DetectBody(entries: seq<Entry>, significantRuns: seq<Run>) returns (bodyColor: string, bandRuns: seq<Run>)
    requires |entries| > 0
    ensures bodyColor == BodyChoice(entries, significantRuns)
    ensures bandRuns == WithoutName(significantRuns, bodyColor)
  {
    var sorted := SortDesc(entries);
    bodyColor := sorted[0].key;
    bandRuns := WithoutName(significantRuns, bodyColor);
    if |bandRuns| < 3 && |entries| > 1 {
      var sorted' := SortDesc(entries);
      if |sorted'| > 1 {
        var altBody := sorted'[1].key;
        var altBands := WithoutName(significantRuns, altBody);
        if |altBands| >= 3 {
          bodyColor := altBody;
          bandRuns := PushAll([], altBands);
        }
      }
    }
  }

  /**
   * The merge loop: a band of the same colour as the last merged band and
   * less than 2*minW columns after it extends that band; any other band is
   * appended as a copy. The result is no longer than the input, ordered and
   * disjoint; each merged band starts where some input band of its colour
   * starts and ends where one ends; two neighbouring merged bands of one
   * colour are at least 2*minW apart; every input band lies inside a merged
   * band of its colour; and two neighbouring input bands lie in one merged
   * band exactly when they have the same colour and less than 2*minW
   * columns between them.
   */
  method MergeBands(bandRuns: seq<Run>, minW: nat) returns (merged: seq<Run>)
    requires Ordered(bandRuns)
    requires forall i :: 0 <= i < |bandRuns| ==> bandRuns[i].len >= 1
    ensures |merged| <= |bandRuns|
    ensures |merged| == 0 <==> |bandRuns| == 0
    ensures Ordered(merged)
    ensures SeparatedSameColour(merged, minW)
    ensures forall i :: 0 <= i < |merged| ==>
      merged[i].len >= 1 && StartsAsSome(merged[i], bandRuns) && EndsAsSome(merged[i], bandRuns)
    ensures forall b :: b in bandRuns ==> exists i :: 0 <= i < |merged| && Covers(merged[i], b)
    ensures MergeRule(bandRuns, merged, minW)
  {
    merged := [];
    ghost var firstSrc: seq<nat> := [];
    ghost var lastSrc: seq<nat> := [];
    ghost var owner: seq<nat> := [];
    for i := 0 to |bandRuns|
      invariant Merging(bandRuns, minW, i, merged, firstSrc, lastSrc, owner)
    {
      var band := bandRuns[i];
      if |merged| > 0 && merged[|merged| - 1].name == band.name
        && band.start - End(merged[|merged| - 1]) < minW * 2
      {
        lastSrc, owner := ExtendStep(bandRuns, minW, i, merged, firstSrc, lastSrc, owner);
        merged := merged[|merged| - 1 := Extended(merged[|merged| - 1], band)];
      } else {
        firstSrc, lastSrc, owner := AppendStep(bandRuns, minW, i, merged, firstSrc, lastSrc, owner);
        merged := merged + [band];
      }
    }
    MergingComplete(bandRuns, minW, merged, firstSrc, lastSrc, owner);
  }

  /** The result of a scan: the merged bands, the body colour and the significant runs. */
  datatype ScanResult = ScanResult(bands: seq<Run>, bodyColor: string, allRuns: seq<Run>)

  /**
   * `getImageData` refuses a region of zero width or zero height, so a
   * frame of no columns or fewer than three rows yields no scan.
   */
  datatype ScanError = EmptyRegion

  /** The classified scan line of a frame: one palette match per column of the strip. */
  ghost function ScanLine(frame: seq<Byte>, w: nat, h: nat, dist: Distance): (line: seq<Classified>)
    requires |frame| == StripSize(w, h) && StripHeight(h) > 0
    ensures |line| == w
  {
    var strip := Strip(frame, w, h);
    ClassifyAll(seq(w, x requires 0 <= x < w => ColumnMean(strip, w, StripHeight(h), x)), dist)
  }

  /**
   * A band that starts and ends like bands among the runs not of colour
   * `body` starts and ends like bands among all the runs, and is not of
   * colour `body` itself.
   */
  lemma ProvenanceThroughFilter(m: Run, runs: seq<Run>, body: string)
    requires StartsAsSome(m, WithoutName(runs, body)) && EndsAsSome(m, WithoutName(runs, body))
    ensures StartsAsSome(m, runs) && EndsAsSome(m, runs) && m.name != body
  {
    var kept := WithoutName(runs, body);
    var a :| 0 <= a < |kept| && kept[a].start == m.start && kept[a].name == m.name && kept[a].color == m.color;
    var b :| 0 <= b < |kept| && End(kept[b]) == End(m) && kept[b].name == m.name;
    assert kept[a] in runs && kept[b] in runs;
    var i :| 0 <= i < |runs| && runs[i] == kept[a];
    var j :| 0 <= j < |runs| && runs[j] == kept[b];
  }

  /** A band that starts like a maximal run carries the classification of its first column. */
  lemma StartColour(m: Run, runs: seq<Run>, line: seq<Classified>)
    requires forall r :: r in runs ==> MaximalRun(line, r)
    requires StartsAsSome(m, runs)
    ensures m.start < |line| && m.color == line[m.start]
  {
    var j :| 0 <= j < |runs| && runs[j].start == m.start && runs[j].name == m.name && runs[j].color == m.color;
    assert runs[j] in runs;
  }

  /** Every key of the sorted pixel counts is the name of some run. */
  lemma SortedKeyIsRunName(runs: seq<Run>, counts: map<string, nat>, k: nat)
    requires forall key :: key in FirstAppearances(runs) ==> key in counts
    requires k < |FirstAppearances(runs)|
    ensures k < |SortDesc(Entries(FirstAppearances(runs), counts))|
    ensures exists j :: 0 <= j < |runs| && runs[j].name == SortDesc(Entries(FirstAppearances(runs), counts))[k].key
  {
    var es := Entries(FirstAppearances(runs), counts);
    SortDescElements(es);
    var e := SortDesc(es)[k];
    assert e in multiset(SortDesc(es));
    assert e in multiset(es);
    var i :| 0 <= i < |es| && es[i] == e;
    FirstAppearancesAreNames(runs, FirstAppearances(runs)[i]);
  }

  /**
   * The body colour chosen for the runs of a line: the colour with the most
   * pixels, unless fewer than three significant runs of other colours are
   * left without it while the runner-up leaves at least three, in which
   * case the runner-up.
   */
  ghost function ChosenBody(runs: seq<Run>, minW: nat): string
    requires |runs| > 0
  {
    assert runs[0].name in FirstAppearances(runs);
    BodyChoice(Entries(FirstAppearances(runs), PixelCounts(runs)), Significant(runs, minW))
  }

  /**
   * The body choice of `scanResistorBands`: the pixel counts, the
   * significant runs and the bands left after dropping the body colour,
   * which is the most frequent colour or, in the fallback, the runner-up;
   * either way it is the name of some run.
   */
  method ChooseBody(runs: seq<Run>, minW: nat) returns (significantRuns: seq<Run>, bodyColor: string, bandRuns: seq<Run>)
    requires |runs| > 0
    ensures significantRuns == Significant(runs, minW)
    ensures bodyColor == ChosenBody(runs, minW)
    ensures bandRuns == WithoutName(significantRuns, bodyColor)
    ensures exists j :: 0 <= j < |runs| && runs[j].name == bodyColor
  {
    var keys, counts := CountPixels(runs);
    assert counts == PixelCounts(runs);
    var entries := Entries(keys, counts);
    significantRuns := Significant(runs, minW);
    assert runs[0].name in keys;
    bodyColor, bandRuns := DetectBody(entries, significantRuns);
    ChosenBodyIsRunName(runs, minW);
  }

  /** The chosen body colour is the name of some run. */
  lemma ChosenBodyIsRunName(runs: seq<Run>, minW: nat)
    requires |runs| > 0
    ensures exists j :: 0 <= j < |runs| && runs[j].name == ChosenBody(runs, minW)
  {
    var counts := PixelCounts(runs);
    assert runs[0].name in FirstAppearances(runs);
    SortedKeyIsRunName(runs, counts, 0);
    if |FirstAppearances(runs)| > 1 {
      SortedKeyIsRunName(runs, counts, 1);
    }
  }

  /**
   * When maximal runs tile the line, the significant runs are exactly the
   * maximal runs of the line at least minW wide.
   */
  lemma SignificantMaximal(classified: seq<Classified>, runs: seq<Run>, minW: nat)
    requires Tiles(runs, |classified|)
    requires forall i :: 0 <= i < |runs| ==> MaximalRun(classified, runs[i])
    ensures forall run :: run in Significant(runs, minW) <==> MaximalRun(classified, run) && run.len >= minW
  {
    forall run | run in Significant(runs, minW)
      ensures MaximalRun(classified, run) && run.len >= minW
    {
      var j :| 0 <= j < |runs| && runs[j] == run;
    }
    forall run | MaximalRun(classified, run) && run.len >= minW
      ensures run in Significant(runs, minW)
    {
      var j := RunAt(runs, |classified|, run.start);
      MaximalRunsOverlap(classified, runs[j], run, run.start);
    }
  }

  /** The runs kept by both filters are non-empty when all runs are. */
  lemma FilteredNonEmpty(runs: seq<Run>, minW: nat, body: string)
    requires forall i :: 0 <= i < |runs| ==> runs[i].len >= 1
    ensures forall i :: 0 <= i < |WithoutName(Significant(runs, minW), body)| ==>
      WithoutName(Significant(runs, minW), body)[i].len >= 1
  {
    var kept := WithoutName(Significant(runs, minW), body);
    forall i | 0 <= i < |kept|
      ensures kept[i].len >= 1
    {
      assert kept[i] in kept;
      var j :| 0 <= j < |runs| && runs[j] == kept[i];
    }
  }

  /**
   * The merge step of a scan: the bands merged from the significant runs
   * not of the body colour are ordered, non-empty, not of the body colour,
   * start and end like significant runs, carry the classification of their
   * first column, keep bands of one colour apart, and cover every
   * significant run not of the body colour; two neighbouring such runs lie
   * in one band exactly when they have the same colour and less than
   * 2*minW columns between them.
   */
  method MergeNonBody(significantRuns: seq<Run>, bodyColor: string, bandRuns: seq<Run>, minW: nat,
                      ghost line: seq<Classified>) returns (merged: seq<Run>)
    requires Ordered(significantRuns)
    requires forall run :: run in significantRuns ==> MaximalRun(line, run)
    requires bandRuns == WithoutName(significantRuns, bodyColor)
    requires forall i :: 0 <= i < |bandRuns| ==> bandRuns[i].len >= 1
    ensures Ordered(merged)
    ensures SeparatedSameColour(merged, minW)
    ensures forall i :: 0 <= i < |merged| ==>
      && merged[i].len >= 1 && merged[i].name != bodyColor
      && StartsAsSome(merged[i], significantRuns) && EndsAsSome(merged[i], significantRuns)
      && merged[i].start < |line| && merged[i].color == line[merged[i].start]
    ensures forall b :: b in significantRuns && b.name != bodyColor ==>
      exists i :: 0 <= i < |merged| && Covers(merged[i], b)
    ensures MergeRule(WithoutName(significantRuns, bodyColor), merged, minW)
  {
    merged := MergeBands(bandRuns, minW);
    forall i | 0 <= i < |merged|
      ensures && merged[i].len >= 1 && merged[i].name != bodyColor
              && StartsAsSome(merged[i], significantRuns) && EndsAsSome(merged[i], significantRuns)
              && merged[i].start < |line| && merged[i].color == line[merged[i].start]
    {
      ProvenanceThroughFilter(merged[i], significantRuns, bodyColor);
      StartColour(merged[i], significantRuns, line);
    }
  }

  /**
   * What a scan of a classified scan line yields: the significant runs are
   * maximal runs of the line, at least MinBandWidth columns wide, in order;
   * the body colour is the colour of some column; the bands are ordered,
   * non-empty, not of the body colour, each starting and ending like a
   * significant run and carrying the classification of its first column;
   * two neighbouring bands of one colour are at least 2*MinBandWidth apart;
   * every significant run not of the body colour lies inside a band; and
   * two neighbouring significant runs not of the body colour lie in one band
   * exactly when they have the same colour and less than 2*MinBandWidth
   * columns between them. The significant runs are all the maximal runs of
   * the line at least MinBandWidth columns wide, and the body colour is the
   * one ChosenBody picks for the maximal runs that tile the line.
   */
  ghost predicate ScanOf(line: seq<Classified>, r: ScanResult)
  {
    var minW := MinBandWidth(|line|);
    && Ordered(r.allRuns)
    && (forall run :: run in r.allRuns ==> run.len >= minW && MaximalRun(line, run))
    && (forall run :: MaximalRun(line, run) && run.len >= minW ==> run in r.allRuns)
    && (exists x :: 0 <= x < |line| && line[x].entry.name == r.bodyColor)
    && Ordered(r.bands)
    && SeparatedSameColour(r.bands, minW)
    && (forall i :: 0 <= i < |r.bands| ==>
          && r.bands[i].len >= 1 && r.bands[i].name != r.bodyColor
          && StartsAsSome(r.bands[i], r.allRuns) && EndsAsSome(r.bands[i], r.allRuns)
          && r.bands[i].start < |line| && r.bands[i].color == line[r.bands[i].start])
    && (forall b :: b in r.allRuns && b.name != r.bodyColor ==>
          exists i :: 0 <= i < |r.bands| && Covers(r.bands[i], b))
    && MergeRule(WithoutName(r.allRuns, r.bodyColor), r.bands, minW)
    && (exists runs ::
          && |runs| > 0 && Tiles(runs, |line|)
          && (forall i :: 0 <= i < |runs| ==> MaximalRun(line, runs[i]))
          && r.bodyColor == ChosenBody(runs, minW))
  }

  /** Everything of `scanResistorBands` after the classification of the columns. */
  method SegmentLine(classified: seq<Classified>) returns (r: ScanResult)
    requires |classified| > 0
    ensures ScanOf(classified, r)
  {
    var runs := EncodeRuns(classified);
    RunsMaximal(classified, runs);
    TilesOrdered(runs, |classified|);
    var minW := MinBandWidth(|classified|);
    var significantRuns, bodyColor, bandRuns := ChooseBody(runs, minW);
    assert exists x :: 0 <= x < |classified| && classified[x].entry.name == bodyColor by {
      var j :| 0 <= j < |runs| && runs[j].name == bodyColor;
      assert MaximalRun(classified, runs[j]);
    }
    SignificantMaximal(classified, runs, minW);
    FilteredNonEmpty(runs, minW, bodyColor);
    var merged := MergeNonBody(significantRuns, bodyColor, bandRuns, minW, classified);
    r := ScanResult(merged, bodyColor, significantRuns);
    assert |runs| > 0 && Tiles(runs, |classified|)
      && (forall i :: 0 <= i < |runs| ==> MaximalRun(classified, runs[i]))
      && r.bodyColor == ChosenBody(runs, MinBandWidth(|classified|));
  }

  /**
   * `scanResistorBands`: with no columns or an empty strip the region read
   * fails; otherwise the columns of the strip are averaged and classified,
   * and the result is a scan of that classified line.
   */
  method ScanResistorBands(frame: seq<Byte>, w: nat, h: nat, dist: Distance)
    returns (res: Result<ScanResult, ScanError>)
    requires |frame| == StripSize(w, h)
    ensures res.Err? <==> w == 0 || StripHeight(h) == 0
    ensures res.Ok? ==> ScanOf(ScanLine(frame, w, h, dist), res.value)
  {
    var bandH := StripHeight(h);
    if w == 0 || bandH == 0 {
      return Err(EmptyRegion);
    }
    var strip := Strip(frame, w, h);
    var colColors := SampleColumns(strip, w, bandH);
    var classified := ClassifyAll(colColors, dist);
    assert colColors == seq(w, x requires 0 <= x < w => ColumnMean(strip, w, bandH, x));
    var r := SegmentLine(classified);
    return Ok(r);
  }
}
