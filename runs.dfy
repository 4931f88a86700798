/**
 * Run-length encoding of the classified scan line (the `runStart` loop of
 * `scanResistorBands`). A run is a maximal stretch of adjacent columns
 * classified to the same palette name.
 */
module Runs {
  import opened Palette
  import opened Classifier

  /**
   * One run: the palette name, the first column, the number of columns and
   * the classification of the first column.
   */
  datatype Run = Run(name: string, start: nat, len: nat, color: Classified)

  /** The palette names of a classified scan line. */
  function Names(cs: seq<Classified>): (ns: seq<string>)
    ensures |ns| == |cs|
    ensures forall i :: 0 <= i < |cs| ==> ns[i] == cs[i].entry.name
  {
    seq(|cs|, i requires 0 <= i < |cs| => cs[i].entry.name)
  }

  /** n copies of a name. */
  function Repeat(name: string, n: nat): (ns: seq<string>)
    ensures |ns| == n
    ensures forall i :: 0 <= i < n ==> ns[i] == name
  {
    seq(n, _ => name)
  }

  /** The name sequence that a list of runs stands for. */
  function Expand(runs: seq<Run>): seq<string>
  {
    if runs == [] then []
    else Expand(runs[..|runs| - 1]) + Repeat(runs[|runs| - 1].name, runs[|runs| - 1].len)
  }

  /** The total number of columns covered by a list of runs. */
  function TotalLen(runs: seq<Run>): nat
  {
    if runs == [] then 0 else TotalLen(runs[..|runs| - 1]) + runs[|runs| - 1].len
  }

  /** Appending a run appends its columns. */
  lemma ExpandSnoc(runs: seq<Run>, r: Run)
    ensures Expand(runs + [r]) == Expand(runs) + Repeat(r.name, r.len)
    ensures TotalLen(runs + [r]) == TotalLen(runs) + r.len
  {
    assert (runs + [r])[..|runs|] == runs;
  }

  /** Extending a prefix by columns that all carry one name. */
  lemma NamesExtend(cs: seq<Classified>, a: nat, b: nat, name: string)
    requires a <= b <= |cs|
    requires forall j :: a <= j < b ==> cs[j].entry.name == name
    ensures Names(cs[..b]) == Names(cs[..a]) + Repeat(name, b - a)
  {
  }

  /** Every column of run r is classified to r's name. */
  ghost predicate Uniform(classified: seq<Classified>, r: Run)
  {
    forall j :: r.start <= j < r.start + r.len ==> j < |classified| && classified[j].entry.name == r.name
  }

  /** Runs lie left to right without overlapping. */
  ghost predicate Ordered(runs: seq<Run>)
  {
    forall i, j :: 0 <= i < j < |runs| ==> runs[i].start + runs[i].len <= runs[j].start
  }

  /**
   * Runs tile the columns [0, n): none is empty, the first starts at 0 and
   * each starts where the previous one ended, and the last ends at n.
   */
  ghost predicate Tiles(runs: seq<Run>, n: nat)
  {
    && (forall i :: 0 <= i < |runs| ==> runs[i].len >= 1)
    && (|runs| > 0 ==> runs[0].start == 0)
    && (forall i :: 0 < i < |runs| ==> runs[i].start == runs[i - 1].start + runs[i - 1].len)
    && (if runs == [] then n == 0 else runs[|runs| - 1].start + runs[|runs| - 1].len == n)
  }

  /** Runs that tile the columns lie in order and inside [0, n). */
  lemma {:induction false} TilesOrdered(runs: seq<Run>, n: nat)
    requires Tiles(runs, n)
    ensures Ordered(runs)
    ensures forall i :: 0 <= i < |runs| ==> runs[i].start + runs[i].len <= n
  {
    if |runs| > 0 {
      var last := runs[|runs| - 1];
      var prefix := runs[..|runs| - 1];
      TilesOrdered(prefix, last.start);
    }
  }

  /**
   * runs is the encoding of the first `upTo` columns: the runs tile them,
   * neighbouring runs differ in name, each run is uniform and carries the
   * classification of its first column, and the runs expand to the names.
   */
  ghost predicate EncodesPrefix(classified: seq<Classified>, runs: seq<Run>, upTo: nat)
  {
    && upTo <= |classified|
    && Tiles(runs, upTo)
    && TotalLen(runs) == upTo
    && (forall i :: 0 < i < |runs| ==> runs[i].name != runs[i - 1].name)
    && (forall i :: 0 <= i < |runs| ==>
          runs[i].start < |classified| && runs[i].color == classified[runs[i].start]
          && runs[i].name == runs[i].color.entry.name)
    && (forall i :: 0 <= i < |runs| ==> Uniform(classified, runs[i]))
    && Expand(runs) == Names(classified[..upTo])
  }

  /** Closing the run [runStart, i) extends the encoding to the first i columns. */
  lemma PushRun(classified: seq<Classified>, runs: seq<Run>, runStart: nat, i: nat)
    requires EncodesPrefix(classified, runs, runStart)
    requires runStart < i <= |classified|
    requires forall j :: runStart <= j < i ==> classified[j].entry.name == classified[runStart].entry.name
    requires |runs| > 0 ==> runs[|runs| - 1].name != classified[runStart].entry.name
    ensures var r := Run(classified[runStart].entry.name, runStart, i - runStart, classified[runStart]);
      EncodesPrefix(classified, runs + [r], i)
  {
    var r := Run(classified[runStart].entry.name, runStart, i - runStart, classified[runStart]);
    PushTiles(runs, r, runStart);
    PushNeighbours(runs, r);
    PushFirstColumns(classified, runs, r);
    assert Uniform(classified, r);
    PushUniform(classified, runs, r);
    ExpandSnoc(runs, r);
    NamesExtend(classified, runStart, i, r.name);
  }

  /** A non-empty run starting where the tiling ends extends the tiling. */
  lemma PushTiles(runs: seq<Run>, r: Run, n: nat)
    requires Tiles(runs, n) && r.start == n && r.len >= 1
    ensures Tiles(runs + [r], n + r.len)
  {
    var rs := runs + [r];
    assert forall k :: 0 <= k < |runs| ==> rs[k] == runs[k];
  }

  /** A run named differently from the last one keeps neighbours distinct. */
  lemma PushNeighbours(runs: seq<Run>, r: Run)
    requires forall i :: 0 < i < |runs| ==> runs[i].name != runs[i - 1].name
    requires |runs| > 0 ==> runs[|runs| - 1].name != r.name
    ensures var rs := runs + [r]; forall i :: 0 < i < |rs| ==> rs[i].name != rs[i - 1].name
  {
    var rs := runs + [r];
    forall i | 0 < i < |rs|
      ensures rs[i].name != rs[i - 1].name
    {
      if i < |runs| {
        assert rs[i] == runs[i] && rs[i - 1] == runs[i - 1];
      }
    }
  }

  /** A run carrying its first column's classification keeps that property for all runs. */
  lemma PushFirstColumns(classified: seq<Classified>, runs: seq<Run>, r: Run)
    requires forall i :: 0 <= i < |runs| ==>
      runs[i].start < |classified| && runs[i].color == classified[runs[i].start]
      && runs[i].name == runs[i].color.entry.name
    requires r.start < |classified| && r.color == classified[r.start] && r.name == r.color.entry.name
    ensures var rs := runs + [r]; forall i :: 0 <= i < |rs| ==>
      rs[i].start < |classified| && rs[i].color == classified[rs[i].start]
      && rs[i].name == rs[i].color.entry.name
  {
    var rs := runs + [r];
    assert forall i :: 0 <= i < |runs| ==> rs[i] == runs[i];
  }

  /** A uniform run keeps all runs uniform. */
  lemma PushUniform(classified: seq<Classified>, runs: seq<Run>, r: Run)
    requires forall i :: 0 <= i < |runs| ==> Uniform(classified, runs[i])
    requires Uniform(classified, r)
    ensures var rs := runs + [r]; forall i :: 0 <= i < |rs| ==> Uniform(classified, rs[i])
  {
    var rs := runs + [r];
    assert forall i :: 0 <= i < |runs| ==> rs[i] == runs[i];
  }

  /** The columns [runStart, i) of the scan line all carry the name of column runStart. */
  ghost predicate OpenRun(classified: seq<Classified>, runStart: nat, i: nat)
  {
    forall j :: runStart <= j < i && j < |classified| ==> classified[j].entry.name == classified[runStart].entry.name
  }

  /** An open run grows by a column of its name, and a fresh one holds its first column. */
  lemma OpenRunStep(classified: seq<Classified>, runStart: nat, i: nat)
    requires OpenRun(classified, runStart, i) && runStart < i < |classified|
    ensures classified[i].entry.name == classified[runStart].entry.name ==> OpenRun(classified, runStart, i + 1)
    ensures OpenRun(classified, i, i + 1)
  {
  }

  /**
   * The runs loop: every run is non-empty, the runs tile the scan line so
   * that their lengths add up to its length, neighbouring runs have
   * different names, every column of a run has the run's name, each run
   * carries the classification of its first column, and expanding the runs
   * gives back the scan line's names.
   */
  method EncodeRuns(classified: seq<Classified>) returns (runs: seq<Run>)
    ensures Tiles(runs, |classified|)
    ensures TotalLen(runs) == |classified|
    ensures forall i :: 0 < i < |runs| ==> runs[i].name != runs[i - 1].name
    ensures forall i :: 0 <= i < |runs| ==>
      runs[i].start < |classified| && runs[i].color == classified[runs[i].start]
      && runs[i].name == runs[i].color.entry.name
    ensures forall i :: 0 <= i < |runs| ==> Uniform(classified, runs[i])
    ensures Expand(runs) == Names(classified)
  {
    var n := |classified|;
    runs := [];
    var runStart := 0;
    var i := 1;
    while i <= n
      invariant 1 <= i <= n + 1
      invariant runStart < i && runStart <= n
      invariant i <= n || runStart == n
      invariant OpenRun(classified, runStart, i)
      invariant EncodesPrefix(classified, runs, runStart)
      invariant |runs| > 0 && runStart < n ==> runs[|runs| - 1].name != classified[runStart].entry.name
    {
      if i < n {
        OpenRunStep(classified, runStart, i);
      }
      if i == n || classified[i].entry.name != classified[runStart].entry.name {
        PushRun(classified, runs, runStart, i);
        runs := runs + [Run(classified[runStart].entry.name, runStart, i - runStart, classified[runStart])];
        runStart := i;
      }
      i := i + 1;
    }
    assert classified[..n] == classified;
  }

  /**
   * r is a maximal run of the scan line: a non-empty stretch of columns of
   * r's name, carrying the classification of its first column, with a column
   * of another name (or the edge of the line) on either side.
   */
  ghost predicate MaximalRun(classified: seq<Classified>, r: Run)
  {
    && r.len >= 1
    && r.start + r.len <= |classified|
    && r.color == classified[r.start]
    && r.name == r.color.entry.name
    && Uniform(classified, r)
    && (r.start > 0 ==> classified[r.start - 1].entry.name != r.name)
    && (r.start + r.len < |classified| ==> classified[r.start + r.len].entry.name != r.name)
  }

  /** Two maximal runs that share a column are the same run. */
  lemma MaximalRunsOverlap(classified: seq<Classified>, r: Run, s: Run, x: nat)
    requires MaximalRun(classified, r) && MaximalRun(classified, s)
    requires r.start <= x < r.start + r.len && s.start <= x < s.start + s.len
    ensures r == s
  {
  }

  /** Runs that tile [0, n) have one run holding each column x < n. */
  lemma {:induction false} RunAt(runs: seq<Run>, n: nat, x: nat) returns (i: nat)
    requires Tiles(runs, n) && x < n
    ensures i < |runs| && runs[i].start <= x < runs[i].start + runs[i].len
  {
    var last := runs[|runs| - 1];
    if x >= last.start {
      i := |runs| - 1;
    } else {
      var prefix := runs[..|runs| - 1];
      assert Tiles(prefix, last.start) by {
        assert |runs| > 1;
      }
      i := RunAt(prefix, last.start, x);
    }
  }

  /** The runs that EncodeRuns promises are all maximal. */
  lemma RunsMaximal(classified: seq<Classified>, runs: seq<Run>)
    requires Tiles(runs, |classified|)
    requires forall i :: 0 < i < |runs| ==> runs[i].name != runs[i - 1].name
    requires forall i :: 0 <= i < |runs| ==>
      runs[i].start < |classified| && runs[i].color == classified[runs[i].start]
      && runs[i].name == runs[i].color.entry.name
    requires forall i :: 0 <= i < |runs| ==> Uniform(classified, runs[i])
    ensures forall i :: 0 <= i < |runs| ==> MaximalRun(classified, runs[i])
  {
    TilesOrdered(runs, |classified|);
    forall i | 0 <= i < |runs|
      ensures MaximalRun(classified, runs[i])
    {
      var r := runs[i];
      if r.start > 0 {
        assert i > 0;
        assert Uniform(classified, runs[i - 1]);
        assert classified[r.start - 1].entry.name == runs[i - 1].name;
      }
      if r.start + r.len < |classified| {
        assert i + 1 < |runs|;
        assert runs[i + 1].start == r.start + r.len;
        assert Uniform(classified, runs[i + 1]);
      }
    }
  }
}
