/**
 * The bookkeeping behind the merge loop of `scanResistorBands`: what it
 * means for a band to span another, the loop invariant with its ghost
 * record of where each merged band starts and ends and which merged band
 * holds each input band, and the lemmas that carry the invariant through
 * one extension or one append and read the promised properties off it at
 * the end.
 */
module BandMerge {
  import opened Runs

  /** The column just after a run. */
  function End(r: Run): nat
  {
    r.start + r.len
  }

  /** Band m spans band b, and both have the same colour. */
  ghost predicate Covers(m: Run, b: Run)
  {
    m.name == b.name && m.start <= b.start && End(b) <= End(m)
  }

  /** Band m starts where some band of bands of its colour starts, with that band's classification. */
  ghost predicate StartsAsSome(m: Run, bands: seq<Run>)
  {
    exists j :: 0 <= j < |bands| && bands[j].start == m.start && bands[j].name == m.name && bands[j].color == m.color
  }

  /** Band m ends where some band of bands of its colour ends. */
  ghost predicate EndsAsSome(m: Run, bands: seq<Run>)
  {
    exists j :: 0 <= j < |bands| && End(bands[j]) == End(m) && bands[j].name == m.name
  }

  /** Each band ends no later than the next one starts. */
  ghost predicate Chained(bands: seq<Run>)
  {
    forall a, b :: 0 <= a < b < |bands| && b == a + 1 ==> End(bands[a]) <= bands[b].start
  }

  /** Chained non-empty bands are ordered and disjoint. */
  lemma {:induction false} ChainedOrdered(bands: seq<Run>)
    requires Chained(bands)
    requires forall k :: 0 <= k < |bands| ==> bands[k].len >= 1
    ensures Ordered(bands)
  {
    if |bands| > 1 {
      var prefix := bands[..|bands| - 1];
      ChainedOrdered(prefix);
      forall a, b | 0 <= a < b < |bands|
        ensures bands[a].start + bands[a].len <= bands[b].start
      {
        if b < |bands| - 1 {
          assert prefix[a] == bands[a] && prefix[b] == bands[b];
        } else if a < b - 1 {
          assert prefix[a] == bands[a] && prefix[b - 1] == bands[b - 1];
          assert End(bands[b - 1]) <= bands[b].start;
        }
      }
    }
  }

  /** Neighbouring merged bands of one colour are at least 2*minW apart. */
  ghost predicate SeparatedSameColour(merged: seq<Run>, minW: nat)
  {
    forall a, b :: 0 <= a < b < |merged| && b == a + 1 && merged[a].name == merged[b].name ==>
      merged[b].start - End(merged[a]) >= 2 * minW
  }

  /**
   * The merged bands after the first i input bands: the last one ends where
   * input band i-1 ends, they are chained and non-empty, and neighbours of
   * one colour are at least 2*minW apart.
   */
  ghost predicate MergedShape(bandRuns: seq<Run>, minW: nat, i: nat, merged: seq<Run>)
  {
    && i <= |bandRuns|
    && |merged| <= i && (i > 0 <==> |merged| > 0)
    && (i > 0 ==> End(merged[|merged| - 1]) == End(bandRuns[i - 1]))
    && Chained(merged)
    && (forall k :: 0 <= k < |merged| ==> merged[k].len >= 1)
    && SeparatedSameColour(merged, minW)
  }

  /**
   * Ghost bookkeeping: merged band k starts like input band firstSrc[k]
   * (with its classification) and ends like input band lastSrc[k], both
   * among the first i.
   */
  ghost predicate MergedSources(bandRuns: seq<Run>, i: nat, merged: seq<Run>, firstSrc: seq<nat>, lastSrc: seq<nat>)
  {
    && |firstSrc| == |lastSrc| == |merged|
    && (forall k {:trigger firstSrc[k]} :: 0 <= k < |merged| ==>
          && firstSrc[k] < i && firstSrc[k] < |bandRuns|
          && bandRuns[firstSrc[k]].start == merged[k].start
          && bandRuns[firstSrc[k]].name == merged[k].name
          && bandRuns[firstSrc[k]].color == merged[k].color)
    && (forall k {:trigger lastSrc[k]} :: 0 <= k < |merged| ==>
          && lastSrc[k] < i && lastSrc[k] < |bandRuns|
          && End(bandRuns[lastSrc[k]]) == End(merged[k])
          && bandRuns[lastSrc[k]].name == merged[k].name)
  }

  /** Ghost bookkeeping: input band j, for each j < i, lies inside merged band owner[j]. */
  ghost predicate MergedOwners(bandRuns: seq<Run>, i: nat, merged: seq<Run>, owner: seq<nat>)
  {
    && |owner| == i && i <= |bandRuns|
    && (forall j {:trigger owner[j]} :: 0 <= j < i ==> owner[j] < |merged| && Covers(merged[owner[j]], bandRuns[j]))
  }

  /** Band b joins band a: same colour, and less than 2*minW columns after a ends. */
  ghost predicate Joined(a: Run, b: Run, minW: nat)
  {
    a.name == b.name && b.start - End(a) < 2 * minW
  }

  /**
   * Ghost bookkeeping: input band i-1 lies in the last merged band, and two
   * neighbouring input bands among the first i lie in the same merged band
   * exactly when the second joins the first.
   */
  ghost predicate MergedJoins(bandRuns: seq<Run>, minW: nat, i: nat, merged: seq<Run>, owner: seq<nat>)
  {
    && |owner| == i && i <= |bandRuns|
    && (i > 0 ==> owner[i - 1] == |merged| - 1)
    && (forall a, b {:trigger owner[a], owner[b]} :: 0 <= a < b < i && b == a + 1 ==>
          (owner[a] == owner[b] <==> Joined(bandRuns[a], bandRuns[b], minW)))
  }

  /** The merge loop's invariant after the first i input bands. */
  ghost predicate Merging(bandRuns: seq<Run>, minW: nat, i: nat, merged: seq<Run>,
                          firstSrc: seq<nat>, lastSrc: seq<nat>, owner: seq<nat>)
  {
    && MergedShape(bandRuns, minW, i, merged)
    && MergedSources(bandRuns, i, merged, firstSrc, lastSrc)
    && MergedOwners(bandRuns, i, merged, owner)
    && MergedJoins(bandRuns, minW, i, merged, owner)
  }

  /** Some merged band spans both a and b. */
  ghost predicate InOneBand(merged: seq<Run>, a: Run, b: Run)
  {
    exists k :: 0 <= k < |merged| && Covers(merged[k], a) && Covers(merged[k], b)
  }

  /**
   * The merge rule over the whole input: two neighbouring input bands end
   * up in one merged band exactly when the second joins the first.
   */
  ghost predicate MergeRule(bandRuns: seq<Run>, merged: seq<Run>, minW: nat)
  {
    forall a, b :: 0 <= a < b < |bandRuns| && b == a + 1 ==>
      (InOneBand(merged, bandRuns[a], bandRuns[b]) <==> Joined(bandRuns[a], bandRuns[b], minW))
  }

  /** A non-empty band lies inside at most one of a sequence of disjoint bands. */
  lemma CoverUnique(merged: seq<Run>, b: Run, k: nat, l: nat)
    requires Ordered(merged) && b.len >= 1
    requires k < |merged| && l < |merged| && Covers(merged[k], b) && Covers(merged[l], b)
    ensures k == l
  {
  }

  /** The band that extending the last merged band by `band` produces. */
  function Extended(last: Run, band: Run): Run
    requires last.start <= band.start
  {
    last.(len := band.start + band.len - last.start)
  }

  /** Extending the last merged band keeps its shape. */
  lemma ExtendShape(bandRuns: seq<Run>, minW: nat, i: nat, merged: seq<Run>)
    requires Ordered(bandRuns) && forall j :: 0 <= j < |bandRuns| ==> bandRuns[j].len >= 1
    requires MergedShape(bandRuns, minW, i, merged)
    requires i < |bandRuns| && |merged| > 0
    ensures merged[|merged| - 1].start <= End(merged[|merged| - 1]) <= bandRuns[i].start
    ensures MergedShape(bandRuns, minW, i + 1,
                        merged[|merged| - 1 := Extended(merged[|merged| - 1], bandRuns[i])])
  {
    var band, last := bandRuns[i], merged[|merged| - 1];
    assert End(bandRuns[i - 1]) <= band.start;
    var m := merged[|merged| - 1 := Extended(last, band)];
    assert Chained(m) by {
      forall a, b | 0 <= a < b < |m| && b == a + 1
        ensures End(m[a]) <= m[b].start
      {
        assert m[a] == merged[a];
        assert m[b].start == merged[b].start;
      }
    }
    assert SeparatedSameColour(m, minW) by {
      forall a, b | 0 <= a < b < |m| && b == a + 1 && m[a].name == m[b].name
        ensures m[b].start - End(m[a]) >= 2 * minW
      {
        assert m[a] == merged[a];
        assert m[b].start == merged[b].start && m[b].name == merged[b].name;
      }
    }
  }

  /** Extending the last merged band by input band i moves its end source to i. */
  lemma ExtendSources(bandRuns: seq<Run>, i: nat, merged: seq<Run>, firstSrc: seq<nat>, lastSrc: seq<nat>)
    requires MergedSources(bandRuns, i, merged, firstSrc, lastSrc)
    requires i < |bandRuns| && |merged| > 0 && merged[|merged| - 1].start <= bandRuns[i].start
    requires merged[|merged| - 1].name == bandRuns[i].name
    ensures MergedSources(bandRuns, i + 1, merged[|merged| - 1 := Extended(merged[|merged| - 1], bandRuns[i])],
                          firstSrc, lastSrc[|lastSrc| - 1 := i])
  {
    var m := merged[|merged| - 1 := Extended(merged[|merged| - 1], bandRuns[i])];
    var ls := lastSrc[|lastSrc| - 1 := i];
    forall k | 0 <= k < |m|
      ensures bandRuns[firstSrc[k]].start == m[k].start && bandRuns[firstSrc[k]].name == m[k].name
      ensures bandRuns[firstSrc[k]].color == m[k].color
      ensures ls[k] < i + 1 && ls[k] < |bandRuns|
      ensures End(bandRuns[ls[k]]) == End(m[k]) && bandRuns[ls[k]].name == m[k].name
    {
      assert firstSrc[k] < i;
      if k < |merged| - 1 {
        assert m[k] == merged[k] && ls[k] == lastSrc[k];
      }
    }
  }

  /** Extending the last merged band by input band i makes it the owner of band i. */
  lemma ExtendOwners(bandRuns: seq<Run>, i: nat, merged: seq<Run>, owner: seq<nat>)
    requires MergedOwners(bandRuns, i, merged, owner)
    requires i < |bandRuns| && |merged| > 0 && merged[|merged| - 1].start <= bandRuns[i].start
    requires merged[|merged| - 1].name == bandRuns[i].name
    requires End(merged[|merged| - 1]) <= End(bandRuns[i])
    ensures MergedOwners(bandRuns, i + 1, merged[|merged| - 1 := Extended(merged[|merged| - 1], bandRuns[i])],
                         owner + [|merged| - 1])
  {
    var m := merged[|merged| - 1 := Extended(merged[|merged| - 1], bandRuns[i])];
    var ow := owner + [|merged| - 1];
    forall j | 0 <= j < i + 1
      ensures ow[j] < |m| && Covers(m[ow[j]], bandRuns[j])
    {
      if j < i {
        assert Covers(merged[owner[j]], bandRuns[j]);
      }
    }
  }

  /** Extending the last merged band by input band i puts bands i-1 and i together, and i joins i-1. */
  lemma ExtendJoins(bandRuns: seq<Run>, minW: nat, i: nat, merged: seq<Run>, owner: seq<nat>)
    requires MergedShape(bandRuns, minW, i, merged)
    requires MergedOwners(bandRuns, i, merged, owner) && MergedJoins(bandRuns, minW, i, merged, owner)
    requires i < |bandRuns| && |merged| > 0 && merged[|merged| - 1].name == bandRuns[i].name
    requires bandRuns[i].start - End(merged[|merged| - 1]) < minW * 2
    ensures MergedJoins(bandRuns, minW, i + 1, merged, owner + [|merged| - 1])
  {
    var ow := owner + [|merged| - 1];
    assert Covers(merged[owner[i - 1]], bandRuns[i - 1]);
    assert Joined(bandRuns[i - 1], bandRuns[i], minW);
    forall a, b | 0 <= a < b < i + 1 && b == a + 1
      ensures ow[a] == ow[b] <==> Joined(bandRuns[a], bandRuns[b], minW)
    {
      assert ow[a] == owner[a];
      if b < i {
        assert ow[b] == owner[b];
      }
    }
  }

  /** Extending the last merged band by input band i keeps the invariant. */
  lemma ExtendStep(bandRuns: seq<Run>, minW: nat, i: nat, merged: seq<Run>,
                   firstSrc: seq<nat>, lastSrc: seq<nat>, owner: seq<nat>)
    returns (lastSrc': seq<nat>, owner': seq<nat>)
    requires Ordered(bandRuns) && forall j :: 0 <= j < |bandRuns| ==> bandRuns[j].len >= 1
    requires Merging(bandRuns, minW, i, merged, firstSrc, lastSrc, owner)
    requires i < |bandRuns| && |merged| > 0 && merged[|merged| - 1].name == bandRuns[i].name
    requires bandRuns[i].start - End(merged[|merged| - 1]) < minW * 2
    ensures merged[|merged| - 1].start <= bandRuns[i].start
    ensures lastSrc' == lastSrc[|lastSrc| - 1 := i] && owner' == owner + [|merged| - 1]
    ensures Merging(bandRuns, minW, i + 1, merged[|merged| - 1 := Extended(merged[|merged| - 1], bandRuns[i])],
                    firstSrc, lastSrc', owner')
  {
    lastSrc', owner' := lastSrc[|lastSrc| - 1 := i], owner + [|merged| - 1];
    ExtendShape(bandRuns, minW, i, merged);
    ExtendSources(bandRuns, i, merged, firstSrc, lastSrc);
    ExtendOwners(bandRuns, i, merged, owner);
    ExtendJoins(bandRuns, minW, i, merged, owner);
  }

  /** Appending input band i as a new merged band keeps the shape. */
  lemma AppendShape(bandRuns: seq<Run>, minW: nat, i: nat, merged: seq<Run>)
    requires Ordered(bandRuns) && forall j :: 0 <= j < |bandRuns| ==> bandRuns[j].len >= 1
    requires MergedShape(bandRuns, minW, i, merged)
    requires i < |bandRuns|
    requires |merged| > 0 && merged[|merged| - 1].name == bandRuns[i].name ==>
      bandRuns[i].start - End(merged[|merged| - 1]) >= minW * 2
    ensures MergedShape(bandRuns, minW, i + 1, merged + [bandRuns[i]])
  {
    var band := bandRuns[i];
    var m := merged + [band];
    assert Chained(m) by {
      assert |merged| > 0 ==> End(merged[|merged| - 1]) == End(bandRuns[i - 1]) <= band.start;
    }
  }

  /** Appending input band i records it as the new band's first and last source. */
  lemma AppendSources(bandRuns: seq<Run>, i: nat, merged: seq<Run>, firstSrc: seq<nat>, lastSrc: seq<nat>)
    requires MergedSources(bandRuns, i, merged, firstSrc, lastSrc)
    requires i < |bandRuns|
    ensures MergedSources(bandRuns, i + 1, merged + [bandRuns[i]], firstSrc + [i], lastSrc + [i])
  {
  }

  /** Appending input band i makes the new band the owner of band i. */
  lemma AppendOwners(bandRuns: seq<Run>, i: nat, merged: seq<Run>, owner: seq<nat>)
    requires MergedOwners(bandRuns, i, merged, owner)
    requires i < |bandRuns|
    ensures MergedOwners(bandRuns, i + 1, merged + [bandRuns[i]], owner + [|merged|])
  {
    var m := merged + [bandRuns[i]];
    var ow := owner + [|merged|];
    forall j | 0 <= j < i + 1
      ensures ow[j] < |m| && Covers(m[ow[j]], bandRuns[j])
    {
      if j < i {
        assert Covers(merged[owner[j]], bandRuns[j]);
      }
    }
  }

  /** Appending input band i as a new merged band separates bands i-1 and i, and i does not join i-1. */
  lemma AppendJoins(bandRuns: seq<Run>, minW: nat, i: nat, merged: seq<Run>, owner: seq<nat>)
    requires MergedShape(bandRuns, minW, i, merged)
    requires MergedOwners(bandRuns, i, merged, owner) && MergedJoins(bandRuns, minW, i, merged, owner)
    requires i < |bandRuns|
    requires |merged| > 0 && merged[|merged| - 1].name == bandRuns[i].name ==>
      bandRuns[i].start - End(merged[|merged| - 1]) >= minW * 2
    ensures MergedJoins(bandRuns, minW, i + 1, merged + [bandRuns[i]], owner + [|merged|])
  {
    var ow := owner + [|merged|];
    if i > 0 {
      assert Covers(merged[owner[i - 1]], bandRuns[i - 1]);
      assert !Joined(bandRuns[i - 1], bandRuns[i], minW);
    }
    forall a, b | 0 <= a < b < i + 1 && b == a + 1
      ensures ow[a] == ow[b] <==> Joined(bandRuns[a], bandRuns[b], minW)
    {
      assert ow[a] == owner[a];
      if b < i {
        assert ow[b] == owner[b];
      }
    }
  }

  /** Appending input band i as a new merged band keeps the invariant. */
  lemma AppendStep(bandRuns: seq<Run>, minW: nat, i: nat, merged: seq<Run>,
                   firstSrc: seq<nat>, lastSrc: seq<nat>, owner: seq<nat>)
    returns (firstSrc': seq<nat>, lastSrc': seq<nat>, owner': seq<nat>)
    requires Ordered(bandRuns) && forall j :: 0 <= j < |bandRuns| ==> bandRuns[j].len >= 1
    requires Merging(bandRuns, minW, i, merged, firstSrc, lastSrc, owner)
    requires i < |bandRuns|
    requires |merged| > 0 && merged[|merged| - 1].name == bandRuns[i].name ==>
      bandRuns[i].start - End(merged[|merged| - 1]) >= minW * 2
    ensures firstSrc' == firstSrc + [i] && lastSrc' == lastSrc + [i] && owner' == owner + [|merged|]
    ensures Merging(bandRuns, minW, i + 1, merged + [bandRuns[i]], firstSrc', lastSrc', owner')
  {
    firstSrc', lastSrc', owner' := firstSrc + [i], lastSrc + [i], owner + [|merged|];
    AppendShape(bandRuns, minW, i, merged);
    AppendSources(bandRuns, i, merged, firstSrc, lastSrc);
    AppendOwners(bandRuns, i, merged, owner);
    AppendJoins(bandRuns, minW, i, merged, owner);
  }

  /** Once every input band is processed, each merged band starts and ends like an input band. */
  lemma MergedFromInputs(bandRuns: seq<Run>, minW: nat, merged: seq<Run>,
                         firstSrc: seq<nat>, lastSrc: seq<nat>, owner: seq<nat>)
    requires Merging(bandRuns, minW, |bandRuns|, merged, firstSrc, lastSrc, owner)
    ensures forall i :: 0 <= i < |merged| ==> StartsAsSome(merged[i], bandRuns) && EndsAsSome(merged[i], bandRuns)
  {
    forall k | 0 <= k < |merged|
      ensures StartsAsSome(merged[k], bandRuns) && EndsAsSome(merged[k], bandRuns)
    {
      var f, l := firstSrc[k], lastSrc[k];
      assert bandRuns[f].start == merged[k].start;
      assert End(bandRuns[l]) == End(merged[k]);
    }
  }

  /** Once every input band is processed, each lies inside a merged band of its colour. */
  lemma InputsCovered(bandRuns: seq<Run>, minW: nat, merged: seq<Run>,
                      firstSrc: seq<nat>, lastSrc: seq<nat>, owner: seq<nat>)
    requires Merging(bandRuns, minW, |bandRuns|, merged, firstSrc, lastSrc, owner)
    ensures forall b :: b in bandRuns ==> exists i :: 0 <= i < |merged| && Covers(merged[i], b)
  {
    forall b | b in bandRuns
      ensures exists k :: 0 <= k < |merged| && Covers(merged[k], b)
    {
      var j :| 0 <= j < |bandRuns| && bandRuns[j] == b;
      assert Covers(merged[owner[j]], bandRuns[j]);
    }
  }

  /** Once every input band is processed, neighbouring inputs share a merged band exactly when they join. */
  lemma InputsJoined(bandRuns: seq<Run>, minW: nat, merged: seq<Run>, owner: seq<nat>)
    requires forall j :: 0 <= j < |bandRuns| ==> bandRuns[j].len >= 1
    requires Ordered(merged)
    requires MergedOwners(bandRuns, |bandRuns|, merged, owner)
    requires MergedJoins(bandRuns, minW, |bandRuns|, merged, owner)
    ensures MergeRule(bandRuns, merged, minW)
  {
    forall a, b | 0 <= a < b < |bandRuns| && b == a + 1
      ensures InOneBand(merged, bandRuns[a], bandRuns[b]) <==> Joined(bandRuns[a], bandRuns[b], minW)
    {
      assert Covers(merged[owner[a]], bandRuns[a]) && Covers(merged[owner[b]], bandRuns[b]);
      if InOneBand(merged, bandRuns[a], bandRuns[b]) {
        var k :| 0 <= k < |merged| && Covers(merged[k], bandRuns[a]) && Covers(merged[k], bandRuns[b]);
        CoverUnique(merged, bandRuns[a], k, owner[a]);
        CoverUnique(merged, bandRuns[b], k, owner[b]);
      }
    }
  }

  /** The merge invariant over all input bands gives every property promised of the merged bands. */
  lemma MergingComplete(bandRuns: seq<Run>, minW: nat, merged: seq<Run>,
                        firstSrc: seq<nat>, lastSrc: seq<nat>, owner: seq<nat>)
    requires forall j :: 0 <= j < |bandRuns| ==> bandRuns[j].len >= 1
    requires Merging(bandRuns, minW, |bandRuns|, merged, firstSrc, lastSrc, owner)
    ensures |merged| <= |bandRuns|
    ensures |merged| == 0 <==> |bandRuns| == 0
    ensures Ordered(merged)
    ensures SeparatedSameColour(merged, minW)
    ensures forall i :: 0 <= i < |merged| ==>
      merged[i].len >= 1 && StartsAsSome(merged[i], bandRuns) && EndsAsSome(merged[i], bandRuns)
    ensures forall b :: b in bandRuns ==> exists i :: 0 <= i < |merged| && Covers(merged[i], b)
    ensures MergeRule(bandRuns, merged, minW)
  {
    ChainedOrdered(merged);
    MergedFromInputs(bandRuns, minW, merged, firstSrc, lastSrc, owner);
    InputsCovered(bandRuns, minW, merged, firstSrc, lastSrc, owner);
    InputsJoined(bandRuns, minW, merged, owner);
  }
}
