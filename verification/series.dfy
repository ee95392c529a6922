/** Sequence and table primitives the pipeline is built from: numpy's
    `max`/`argmax`, Python's slicing rules, column access on a row-major
    table, and sums of differences. */
module Series {
  import opened Base

  /** np.argmax: the FIRST index holding the largest value. */
  function ArgMax(s: seq<real>): (k: nat)
    requires |s| > 0
    ensures k < |s|
    ensures forall i :: 0 <= i < |s| ==> s[i] <= s[k]
    ensures forall i :: 0 <= i < k ==> s[i] < s[k]
  {
    if |s| == 1 then 0
    else
      var k := ArgMax(s[..|s| - 1]);
      if s[|s| - 1] > s[k] then |s| - 1 else k
  }

  /** np.max: the largest value. */
  function Max(s: seq<real>): (m: real)
    requires |s| > 0
    ensures forall i :: 0 <= i < |s| ==> s[i] <= m
    ensures exists i :: 0 <= i < |s| && s[i] == m
  {
    s[ArgMax(s)]
  }

  /** np.min: the smallest value. */
  function Min(s: seq<real>): (m: real)
    requires |s| > 0
    ensures forall i :: 0 <= i < |s| ==> m <= s[i]
    ensures exists i :: 0 <= i < |s| && s[i] == m
  {
    if |s| == 1 then s[0]
    else
      var m := Min(s[1..]);
      assert forall i :: 1 <= i < |s| ==> s[1..][i - 1] == s[i];
      if s[0] <= m then s[0] else m
  }

  /** Python `s[:n]` for n >= 0: at most the first n elements. */
  function Take<T>(s: seq<T>, n: nat): (r: seq<T>)
    ensures |r| == MinInt(n, |s|)
    ensures forall i :: 0 <= i < |r| ==> r[i] == s[i]
  {
    if n >= |s| then s else s[..n]
  }

  /** Python `s[n:]` for n >= 0: everything after the first n elements. */
  function Drop<T>(s: seq<T>, n: nat): (r: seq<T>)
    ensures |r| == MaxInt(0, |s| - n)
    ensures forall i :: 0 <= i < |r| ==> r[i] == s[i + n]
  {
    if n >= |s| then [] else s[n..]
  }

  /** Python `s[:-n]` for n > 0: all but the last n elements. */
  function DropTail<T>(s: seq<T>, n: nat): (r: seq<T>)
    requires n > 0
    ensures |r| == MaxInt(0, |s| - n)
    ensures forall i :: 0 <= i < |r| ==> r[i] == s[i]
  {
    if n >= |s| then [] else s[..|s| - n]
  }

  /** Every row of the table has exactly `width` cells. */
  predicate Rectangular<T>(m: seq<seq<T>>, width: nat) {
    forall k :: 0 <= k < |m| ==> |m[k]| == width
  }

  /** Column j of a row-major table (`df.iloc[:, j]`). */
  function Column<T>(m: seq<seq<T>>, j: nat): (c: seq<T>)
    requires forall k :: 0 <= k < |m| ==> j < |m[k]|
    ensures |c| == |m|
    ensures forall k :: 0 <= k < |m| ==> c[k] == m[k][j]
  {
    seq(|m|, k requires 0 <= k < |m| => m[k][j])
  }

  /** np.max(m, axis=0) over the channel columns of a non-empty table. */
  function ColumnMax(m: seq<seq<real>>): (r: seq<real>)
    requires |m| > 0 && Rectangular(m, Channels)
    ensures |r| == Channels
    ensures forall j, k :: 0 <= j < Channels && 0 <= k < |m| ==> m[k][j] <= r[j]
    ensures forall j :: 0 <= j < Channels ==> r[j] in Column(m, j)
  {
    seq(Channels, j requires 0 <= j < Channels => Max(Column(m, j)))
  }

  /** Sum of a sequence, accumulated left to right. */
  function Sum(s: seq<real>): real {
    if |s| == 0 then 0.0 else Sum(s[..|s| - 1]) + s[|s| - 1]
  }

  /** np.diff: successive differences; empty for fewer than two values. */
  function Diff(t: seq<real>): (d: seq<real>)
    ensures |d| == MaxInt(0, |t| - 1)
    ensures forall k :: 0 <= k < |d| ==> d[k] == t[k + 1] - t[k]
  {
    if |t| <= 1 then [] else seq(|t| - 1, k requires 0 <= k < |t| - 1 => t[k + 1] - t[k])
  }

  /** np.cumsum: running totals. */
  function CumSum(d: seq<real>): (c: seq<real>)
    ensures |c| == |d|
  {
    seq(|d|, k requires 0 <= k < |d| => Sum(d[..k + 1]))
  }

  /** The running total of successive differences telescopes: adding up
      the first k differences of t gives t[k] - t[0]. */
  lemma {:induction false} SumOfDiffsTelescopes(t: seq<real>, k: nat)
    requires k < |t|
    ensures Sum(Diff(t)[..k]) == t[k] - t[0]
  {
    if k > 0 {
      SumOfDiffsTelescopes(t, k - 1);
      assert Diff(t)[..k][..k - 1] == Diff(t)[..k - 1];
    }
  }

  /** Number of set bits in a mask. */
  function Count(mask: seq<bool>): nat {
    if |mask| == 0 then 0
    else Count(mask[..|mask| - 1]) + (if mask[|mask| - 1] then 1 else 0)
  }

  /** Boolean-mask indexing `xs[mask]`: the entries whose bit is set, in
      their original order. */
  function Keep<T>(xs: seq<T>, mask: seq<bool>): (r: seq<T>)
    requires |xs| == |mask|
    ensures |r| == Count(mask)
  {
    if |xs| == 0 then []
    else
      Keep(xs[..|xs| - 1], mask[..|mask| - 1]) + (if mask[|mask| - 1] then [xs[|xs| - 1]] else [])
  }

  /** The positions 0, ..., n - 1. */
  function Indices(n: nat): (r: seq<nat>)
    ensures |r| == n
    ensures forall i :: 0 <= i < n ==> r[i] == i
  {
    seq(n, i requires 0 <= i < n => i)
  }

  /** The positions a mask keeps, ascending. */
  function KeptIndices(mask: seq<bool>): seq<nat> {
    Keep(Indices(|mask|), mask)
  }

  /** Masking picks exactly the set positions, ascending, and nothing else:
      the i-th kept entry is the entry at the i-th set position. */
  lemma KeepAt<T>(xs: seq<T>, mask: seq<bool>)
    requires |xs| == |mask|
    ensures |KeptIndices(mask)| == |Keep(xs, mask)|
    ensures forall i :: 0 <= i < |KeptIndices(mask)| ==>
      KeptIndices(mask)[i] < |xs| && mask[KeptIndices(mask)[i]] && Keep(xs, mask)[i] == xs[KeptIndices(mask)[i]]
    ensures forall i, j :: 0 <= i < j < |KeptIndices(mask)| ==> KeptIndices(mask)[i] < KeptIndices(mask)[j]
    ensures forall p :: 0 <= p < |mask| && mask[p] ==> p in KeptIndices(mask)
  {
    KeptEntries(xs, mask);
    KeptIndicesAscending(mask);
    KeptIndicesComplete(mask);
  }

  /** The kept positions of a longer mask extend those of its prefix by
      the new position when its bit is set. */
  lemma KeptIndicesSnoc(mask: seq<bool>)
    requires |mask| > 0
    ensures KeptIndices(mask) ==
      KeptIndices(mask[..|mask| - 1]) + (if mask[|mask| - 1] then [|mask| - 1] else [])
  {
    var n := |mask| - 1;
    assert Indices(n + 1)[..n] == Indices(n);
  }

  /** The i-th kept entry is the entry at the i-th kept position, where the
      mask bit is set. */
  lemma {:induction false} KeptEntries<T>(xs: seq<T>, mask: seq<bool>)
    requires |xs| == |mask|
    ensures |KeptIndices(mask)| == |Keep(xs, mask)|
    ensures forall i :: 0 <= i < |KeptIndices(mask)| ==>
      KeptIndices(mask)[i] < |xs| && mask[KeptIndices(mask)[i]] && Keep(xs, mask)[i] == xs[KeptIndices(mask)[i]]
  {
    if |xs| > 0 {
      var n := |xs| - 1;
      KeptEntries(xs[..n], mask[..n]);
      KeptIndicesSnoc(mask);
      var ks := KeptIndices(mask[..n]);
      forall i | 0 <= i < |KeptIndices(mask)|
        ensures KeptIndices(mask)[i] < |xs| && mask[KeptIndices(mask)[i]]
        ensures Keep(xs, mask)[i] == xs[KeptIndices(mask)[i]]
      {
        if i < |ks| {
          assert KeptIndices(mask)[i] == ks[i];
          assert Keep(xs, mask)[i] == Keep(xs[..n], mask[..n])[i];
        }
      }
    }
  }

  /** Kept positions rise strictly. */
  lemma {:induction false} KeptIndicesAscending(mask: seq<bool>)
    ensures forall i, j :: 0 <= i < j < |KeptIndices(mask)| ==> KeptIndices(mask)[i] < KeptIndices(mask)[j]
  {
    if |mask| > 0 {
      var n := |mask| - 1;
      KeptIndicesAscending(mask[..n]);
      KeptEntries(mask[..n], mask[..n]);
      KeptIndicesSnoc(mask);
    }
  }

  /** Every position whose bit is set is kept. */
  lemma {:induction false} KeptIndicesComplete(mask: seq<bool>)
    ensures forall p :: 0 <= p < |mask| && mask[p] ==> p in KeptIndices(mask)
  {
    if |mask| > 0 {
      var n := |mask| - 1;
      KeptIndicesComplete(mask[..n]);
      KeptIndicesSnoc(mask);
      forall p | 0 <= p < n && mask[p]
        ensures p in KeptIndices(mask)
      {
        assert mask[..n][p];
      }
    }
  }
}
