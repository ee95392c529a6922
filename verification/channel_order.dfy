/** Channel remapping (eb_analysis.py `ch_order` and `correct_ch_order`):
    the sensor type picks an order of the 8 physical channels, and every
    capacitance table is cut down to 16 columns — 5 metadata columns, the 8
    channel columns in that order, shifted by the board version, and the 3
    trailing columns. */
module ChannelOrder {
  import opened Base
  import opened Series

  /** s lists each of lo, ..., lo + n - 1 exactly once. */
  predicate IsPermutation(s: seq<int>, lo: int, n: nat) {
    && |s| == n
    && (forall i :: 0 <= i < n ==> lo <= s[i] < lo + n)
    && (forall i, j :: 0 <= i < j < n ==> s[i] != s[j])
    && (forall x :: lo <= x < lo + n ==> x in s)
  }

  /** The channel order for a sensor type: type 1 reads the channels in
      board order, type 3 reads the second group of four backwards. Any
      other type leaves the order undefined. */
  function ChOrder(sensorType: int): (r: Option<seq<int>>)
    ensures r.Some? <==> sensorType == 1 || sensorType == 3
    ensures r.Some? ==> IsPermutation(r.value, 1, Channels)
    ensures sensorType == 1 ==> forall c :: 0 <= c < |r.value| ==> r.value[c] == c + 1
    ensures sensorType == 3 ==> forall c :: 0 <= c < |r.value| ==>
      r.value[c] == (if c < 4 then c + 1 else 12 - c)
  {
    if sensorType == 1 then Some([1, 2, 3, 4, 5, 6, 7, 8])
    else if sensorType == 3 then Some([1, 2, 3, 4, 8, 7, 6, 5])
    else None
  }

  /** The column list `range(0, 5) + (ch_order + v - 1) + range(13, 16)`. */
  function Columns(order: seq<int>, version: int): (cols: seq<int>)
    ensures |cols| == 5 + |order| + 3
    ensures forall k :: 0 <= k < 5 ==> cols[k] == k
    ensures forall c :: 0 <= c < |order| ==> cols[5 + c] == order[c] + version - 1
    ensures forall k :: 5 + |order| <= k < |cols| ==> cols[k] == k - |order| + 8
  {
    [0, 1, 2, 3, 4] + seq(|order|, c requires 0 <= c < |order| => order[c] + version - 1) + [13, 14, 15]
  }

  /** With board version 5 and a permutation of channels 1..8, the selected
      columns are a permutation of the 16 loaded columns: every column of
      the file is kept exactly once. */
  lemma ColumnsArePermutation(order: seq<int>)
    requires IsPermutation(order, 1, Channels)
    ensures IsPermutation(Columns(order, BoardVersion), 0, CapColumns)
  {
    var cols := Columns(order, BoardVersion);
    forall x | 0 <= x < CapColumns
      ensures x in cols
    {
      if x < 5 {
        assert cols[x] == x;
      } else if x < 13 {
        assert x - 4 in order;
        var c := IndexOf(order, x - 4);
        assert cols[5 + c] == x;
      } else {
        assert cols[5 + 8 + (x - 13)] == x;
      }
    }
  }

  /** Picks the cells of one row at the given column positions
      (`df.iloc[r, cols]`). */
  function Select<T>(row: seq<T>, cols: seq<int>): (out: seq<T>)
    requires forall k :: 0 <= k < |cols| ==> 0 <= cols[k] < |row|
    ensures |out| == |cols|
  {
    seq(|cols|, k requires 0 <= k < |cols| => row[cols[k]])
  }

  /** Position of the first occurrence of x in s. */
  function IndexOf(s: seq<int>, x: int): (i: nat)
    requires x in s
    ensures i < |s| && s[i] == x
    ensures forall j :: 0 <= j < i ==> s[j] != x
  {
    if s[0] == x then 0 else 1 + IndexOf(s[1..], x)
  }

  /** The inverse of a permutation of 0..n-1: where each column went. */
  function Inverse(cols: seq<int>): (inv: seq<int>)
    requires IsPermutation(cols, 0, |cols|)
    ensures |inv| == |cols|
    ensures forall k :: 0 <= k < |inv| ==> 0 <= inv[k] < |cols| && cols[inv[k]] == k
  {
    seq(|cols|, k requires 0 <= k < |cols| => IndexOf(cols, k))
  }

  /** Remapping a row loses nothing: selecting the inverse columns from the
      remapped row gives the original row back. */
  lemma SelectRoundTrip<T>(row: seq<T>, cols: seq<int>)
    requires IsPermutation(cols, 0, |row|)
    ensures Select(Select(row, cols), Inverse(cols)) == row
  {
  }

  /** One remapped row: metadata and trailing columns stay where they
      were, column 5 + c receives physical column order[c] + 4, and the
      inverse selection gives the original row back. */
  function RemapRow<T>(row: seq<T>, order: seq<int>): (out: seq<T>)
    requires IsPermutation(order, 1, Channels)
    requires |row| == CapColumns
    ensures |out| == CapColumns
    ensures forall k :: (0 <= k < 5 || 13 <= k < 16) ==> out[k] == row[k]
    ensures forall c :: 0 <= c < Channels ==> out[BoardVersion + c] == row[order[c] + BoardVersion - 1]
    ensures IsPermutation(Columns(order, BoardVersion), 0, CapColumns)
    ensures Select(out, Inverse(Columns(order, BoardVersion))) == row
  {
    ColumnsArePermutation(order);
    SelectRoundTrip(row, Columns(order, BoardVersion));
    Select(row, Columns(order, BoardVersion))
  }

  /** correct_ch_order: the same remapping applied to every row of every
      run's table; runs and rows keep their count and order. */
  function CorrectChOrder<T>(tables: seq<seq<seq<T>>>, order: seq<int>): (out: seq<seq<seq<T>>>)
    requires IsPermutation(order, 1, Channels)
    requires forall i :: 0 <= i < |tables| ==> Rectangular(tables[i], CapColumns)
    ensures |out| == |tables|
    ensures forall i :: 0 <= i < |out| ==> |out[i]| == |tables[i]| && Rectangular(out[i], CapColumns)
    ensures forall i, r :: 0 <= i < |out| && 0 <= r < |out[i]| ==>
      Rectangular(tables[i], CapColumns) && out[i][r] == RemapRow(tables[i][r], order)
  {
    seq(|tables|, i requires 0 <= i < |tables| =>
      assert Rectangular(tables[i], CapColumns);
      seq(|tables[i]|, r requires 0 <= r < |tables[i]| => RemapRow(tables[i][r], order)))
  }
}
