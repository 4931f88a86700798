/**
 * Body-colour statistics of `scanResistorBands`: the per-name pixel totals
 * (`colorPixelCount`, an object whose keys keep insertion order), their
 * entries sorted by descending count with a stable sort, and what the first
 * two sorted entries are.
 */
module BodyDetection {
  import opened Runs

  /** One `[name, count]` pair of `Object.entries(colorPixelCount)`. */
  datatype Entry = Entry(key: string, count: nat)

  /** Number of columns of the runs named `name`: at most the columns of all runs. */
  function CountOf(runs: seq<Run>, name: string): (n: nat)
    ensures n <= TotalLen(runs)
  {
    if runs == [] then 0
    else
      var last := runs[|runs| - 1];
      CountOf(runs[..|runs| - 1], name) + (if last.name == name then last.len else 0)
  }

  /** Appending a run adds its length to its own name's count only. */
  lemma CountOfSnoc(runs: seq<Run>, r: Run, name: string)
    ensures CountOf(runs + [r], name) == CountOf(runs, name) + (if r.name == name then r.len else 0)
  {
    assert (runs + [r])[..|runs|] == runs;
  }

  /** The distinct run names, in the order in which they first appear. */
  function FirstAppearances(runs: seq<Run>): (keys: seq<string>)
    ensures forall i, j :: 0 <= i < j < |keys| ==> keys[i] != keys[j]
    ensures forall i :: 0 <= i < |runs| ==> runs[i].name in keys
  {
    if runs == [] then []
    else
      var keys := FirstAppearances(runs[..|runs| - 1]);
      var name := runs[|runs| - 1].name;
      if name in keys then keys else keys + [name]
  }

  /** Every key is the name of some run. */
  lemma {:induction false} FirstAppearancesAreNames(runs: seq<Run>, k: string)
    requires k in FirstAppearances(runs)
    ensures exists i :: 0 <= i < |runs| && runs[i].name == k
  {
    var prefix := runs[..|runs| - 1];
    if k in FirstAppearances(prefix) {
      FirstAppearancesAreNames(prefix, k);
      var i :| 0 <= i < |prefix| && prefix[i].name == k;
      assert runs[i].name == k;
    } else {
      assert runs[|runs| - 1].name == k;
    }
  }

  /** A name that no run carries has no columns. */
  lemma {:induction false} CountOfAbsent(runs: seq<Run>, name: string)
    requires name !in FirstAppearances(runs)
    ensures CountOf(runs, name) == 0
  {
    if runs != [] {
      CountOfAbsent(runs[..|runs| - 1], name);
    }
  }

  /** The counts of the names in keys, added up. */
  function SumOf(keys: seq<string>, runs: seq<Run>): nat
  {
    if keys == [] then 0 else SumOf(keys[..|keys| - 1], runs) + CountOf(runs, keys[|keys| - 1])
  }

  /** The last run adds its length to the total of any key list naming it once. */
  lemma {:induction false} SumOfLast(keys: seq<string>, runs: seq<Run>)
    requires runs != []
    requires forall i, j :: 0 <= i < j < |keys| ==> keys[i] != keys[j]
    ensures var r := runs[|runs| - 1];
      SumOf(keys, runs) == SumOf(keys, runs[..|runs| - 1]) + (if r.name in keys then r.len else 0)
  {
    if keys != [] {
      var prefix := keys[..|keys| - 1];
      SumOfLast(prefix, runs);
      assert runs[|runs| - 1].name in keys <==>
        runs[|runs| - 1].name in prefix || runs[|runs| - 1].name == keys[|keys| - 1];
    }
  }

  /** The per-name pixel counts add up to the number of columns the runs cover. */
  lemma {:induction false} CountsSumToLength(runs: seq<Run>)
    ensures SumOf(FirstAppearances(runs), runs) == TotalLen(runs)
  {
    if runs != [] {
      var prefix, r := runs[..|runs| - 1], runs[|runs| - 1];
      var keys := FirstAppearances(prefix);
      CountsSumToLength(prefix);
      if r.name in keys {
        SumOfLast(keys, runs);
      } else {
        CountOfAbsent(prefix, r.name);
        var keys' := keys + [r.name];
        assert keys'[..|keys'| - 1] == keys;
        SumOfLast(keys', runs);
        SumOfLast(keys, runs);
      }
    }
  }

  /**
   * The `colorPixelCount` loop: one key per distinct name in order of first
   * appearance, and each key's count is the number of columns of its runs.
   */
  method CountPixels(runs: seq<Run>) returns (keys: seq<string>, counts: map<string, nat>)
    ensures keys == FirstAppearances(runs)
    ensures forall k :: k in counts <==> k in keys
    ensures forall k :: k in counts ==> counts[k] == CountOf(runs, k)
  {
    keys, counts := [], map[];
    for i := 0 to |runs|
      invariant keys == FirstAppearances(runs[..i])
      invariant forall k :: k in counts <==> k in keys
      invariant forall k :: k in counts ==> counts[k] == CountOf(runs[..i], k)
    {
      var r := runs[i];
      assert runs[..i + 1][..i] == runs[..i];
      assert runs[..i + 1] == runs[..i] + [r];
      if r.name !in counts {
        CountOfAbsent(runs[..i], r.name);
        keys := keys + [r.name];
      }
      counts := counts[r.name := (if r.name in counts then counts[r.name] else 0) + r.len];
      forall k | k in counts
        ensures counts[k] == CountOf(runs[..i + 1], k)
      {
        CountOfSnoc(runs[..i], r, k);
      }
    }
    assert runs[..|runs|] == runs;
  }

  /** The pixel count of every run name: what CountPixels computes. */
  ghost function PixelCounts(runs: seq<Run>): (counts: map<string, nat>)
    ensures forall k :: k in counts <==> k in FirstAppearances(runs)
  {
    map k | k in FirstAppearances(runs) :: CountOf(runs, k)
  }

  /** `Object.entries(colorPixelCount)`: the pairs in key order. */
  function Entries(keys: seq<string>, counts: map<string, nat>): (es: seq<Entry>)
    requires forall k :: k in keys ==> k in counts
    ensures |es| == |keys|
    ensures forall i :: 0 <= i < |keys| ==> es[i] == Entry(keys[i], counts[keys[i]])
  {
    seq(|keys|, i requires 0 <= i < |keys| => Entry(keys[i], counts[keys[i]]))
  }

  /**
   * Inserts e into a list after every entry whose count is at least e's:
   * one step of a stable sort by descending count.
   */
  function Insert(e: Entry, sorted: seq<Entry>): (r: seq<Entry>)
    ensures |r| == |sorted| + 1
    ensures forall x :: x in r <==> x == e || x in sorted
  {
    if sorted == [] then [e]
    else if sorted[0].count >= e.count then [sorted[0]] + Insert(e, sorted[1..])
    else [e] + sorted
  }

  /** Inserting adds exactly e. */
  lemma {:induction false} InsertElements(e: Entry, sorted: seq<Entry>)
    ensures multiset(Insert(e, sorted)) == multiset(sorted) + multiset{e}
  {
    if sorted != [] {
      assert sorted == [sorted[0]] + sorted[1..];
      if sorted[0].count >= e.count {
        InsertElements(e, sorted[1..]);
      }
    }
  }

  /**
   * `.sort((a, b) => b[1] - a[1])`: a stable sort by descending count
   * (every stable sort gives this same order).
   */
  function SortDesc(es: seq<Entry>): (r: seq<Entry>)
    ensures |r| == |es|
  {
    if es == [] then [] else Insert(es[|es| - 1], SortDesc(es[..|es| - 1]))
  }

  /** The sort is a permutation. */
  lemma {:induction false} SortDescElements(es: seq<Entry>)
    ensures multiset(SortDesc(es)) == multiset(es)
  {
    if es != [] {
      var p, e := es[..|es| - 1], es[|es| - 1];
      SortDescElements(p);
      InsertElements(e, SortDesc(p));
      LastElement(es);
    }
  }

  /** The elements of a non-empty list are those before its last one, and the last one. */
  lemma LastElement(es: seq<Entry>)
    requires es != []
    ensures multiset(es) == multiset(es[..|es| - 1]) + multiset{es[|es| - 1]}
  {
    assert es == es[..|es| - 1] + [es[|es| - 1]];
  }

  /**
   * Position of the first entry with the largest count: no count is larger,
   * and every earlier count is strictly smaller.
   */
  function FirstMaxIndex(es: seq<Entry>): (k: nat)
    requires |es| > 0
    ensures k < |es|
    ensures forall j :: 0 <= j < |es| ==> es[j].count <= es[k].count
    ensures forall j :: 0 <= j < k ==> es[j].count < es[k].count
  {
    if |es| == 1 then 0
    else
      var k := FirstMaxIndex(es[..|es| - 1]);
      if es[|es| - 1].count > es[k].count then |es| - 1 else k
  }

  /** Appending an entry moves the first maximum only to a strictly larger count. */
  lemma FirstMaxIndexSnoc(p: seq<Entry>, e: Entry)
    requires |p| > 0
    ensures FirstMaxIndex(p + [e]) == if e.count > p[FirstMaxIndex(p)].count then |p| else FirstMaxIndex(p)
  {
    assert (p + [e])[..|p|] == p;
  }

  /** es without its element at k. */
  function RemoveAt(es: seq<Entry>, k: nat): (r: seq<Entry>)
    requires k < |es|
    ensures |r| == |es| - 1
  {
    es[..k] + es[k + 1..]
  }

  /** Removing an element keeps the others. */
  lemma RemoveAtElements(es: seq<Entry>, k: nat)
    requires k < |es|
    ensures multiset(RemoveAt(es, k)) + multiset{es[k]} == multiset(es)
  {
    assert es == es[..k] + [es[k]] + es[k + 1..];
  }

  /** Removing an element before the last one commutes with appending. */
  lemma RemoveAtSnoc(p: seq<Entry>, e: Entry, k: nat)
    requires k < |p|
    ensures RemoveAt(p + [e], k) == RemoveAt(p, k) + [e]
  {
    var l, r := RemoveAt(p + [e], k), RemoveAt(p, k) + [e];
    assert |l| == |r|;
    forall i | 0 <= i < |l|
      ensures l[i] == r[i]
    {
      if i < k {
        assert l[i] == p[i] == r[i];
      } else {
        assert l[i] == (p + [e])[i + 1];
      }
    }
  }

  /**
   * The stable descending sort picks the first entry of largest count,
   * then sorts the rest the same way: it is a selection sort that always
   * takes the first maximum.
   */
  lemma {:induction false} SortSelectsFirstMax(es: seq<Entry>)
    requires |es| > 0
    ensures var k := FirstMaxIndex(es);
      SortDesc(es) == [es[k]] + SortDesc(RemoveAt(es, k))
  {
    var n := |es|;
    if n == 1 {
      assert RemoveAt(es, 0) == [];
    } else {
      var p, e := es[..n - 1], es[n - 1];
      var k := FirstMaxIndex(p);
      SortSelectsFirstMax(p);
      var rest := SortDesc(RemoveAt(p, k));
      assert SortDesc(p) == [p[k]] + rest;
      assert SortDesc(es) == Insert(e, [p[k]] + rest);
      assert es == p + [e];
      FirstMaxIndexSnoc(p, e);
      if e.count > p[k].count {
        assert RemoveAt(es, n - 1) == p;
      } else {
        assert ([p[k]] + rest)[1..] == rest;
        RemoveAtSnoc(p, e, k);
        var rem := RemoveAt(es, k);
        assert rem[..|rem| - 1] == RemoveAt(p, k);
      }
    }
  }

  /** Counts never increase along a list. */
  ghost predicate Descending(es: seq<Entry>)
  {
    forall i, j :: 0 <= i < j < |es| ==> es[i].count >= es[j].count
  }

  /** The sorted entries are in descending order of count. */
  lemma {:induction false} SortDescIsDescending(es: seq<Entry>)
    ensures Descending(SortDesc(es))
    decreases |es|
  {
    if es != [] {
      var k := FirstMaxIndex(es);
      var rem := RemoveAt(es, k);
      var t := SortDesc(rem);
      SortSelectsFirstMax(es);
      SortDescIsDescending(rem);
      SortDescElements(rem);
      RemoveAtElements(es, k);
      forall y | y in t
        ensures es[k].count >= y.count
      {
        assert y in multiset(t);
        assert y in multiset(es);
      }
      DescendingCons(es[k], t);
    }
  }

  /** An entry whose count is at least every count of a descending list can go in front. */
  lemma DescendingCons(x: Entry, t: seq<Entry>)
    requires Descending(t)
    requires forall y :: y in t ==> x.count >= y.count
    ensures Descending([x] + t)
  {
    var s := [x] + t;
    forall i, j | 0 <= i < j < |s|
      ensures s[i].count >= s[j].count
    {
      assert s[j] == t[j - 1];
      if i > 0 {
        assert s[i] == t[i - 1];
      }
    }
  }

  /**
   * `sorted[0]`: the first entry, in key order, of largest count; every
   * earlier key has strictly fewer pixels.
   */
  lemma MostFrequentFirst(es: seq<Entry>)
    requires |es| > 0
    ensures SortDesc(es)[0] == es[FirstMaxIndex(es)]
  {
    SortSelectsFirstMax(es);
  }

  /**
   * The body colour outside the fallback: the first name, in order of
   * first appearance, whose runs cover the most columns; every name seen
   * earlier covers strictly fewer.
   */
  lemma MostFrequentName(runs: seq<Run>) returns (k: nat)
    requires |runs| > 0
    ensures var keys := FirstAppearances(runs);
      && |SortDesc(Entries(keys, PixelCounts(runs)))| > 0
      && k < |keys| && keys[k] == SortDesc(Entries(keys, PixelCounts(runs)))[0].key
      && (forall j :: 0 <= j < |keys| ==> CountOf(runs, keys[j]) <= CountOf(runs, keys[k]))
      && (forall j :: 0 <= j < k ==> CountOf(runs, keys[j]) < CountOf(runs, keys[k]))
  {
    var keys := FirstAppearances(runs);
    var counts := PixelCounts(runs);
    var es := Entries(keys, counts);
    assert runs[0].name in keys;
    MostFrequentFirst(es);
    k := FirstMaxIndex(es);
    forall j | 0 <= j < |keys|
      ensures es[j].count == CountOf(runs, keys[j])
    {
      assert keys[j] in keys;
    }
  }

  /**
   * `sorted[1]`: with the most frequent entry taken out, the first entry
   * of largest count among the others.
   */
  lemma RunnerUpSecond(es: seq<Entry>)
    requires |es| > 1
    ensures var rem := RemoveAt(es, FirstMaxIndex(es));
      SortDesc(es)[1] == rem[FirstMaxIndex(rem)]
  {
    var rem := RemoveAt(es, FirstMaxIndex(es));
    SortSelectsFirstMax(es);
    SortSelectsFirstMax(rem);
  }
}
