/** The whole analysis as the script runs it at import time: pick the
    channel order for the sensor type, remap every capacitance table,
    resample every run onto 200 Hz grids, and synchronise the runs. File
    loading and plotting are not part of the model; the tables arrive as
    parameters. */
module Pipeline {
  import opened Base
  import opened Series
  import opened ChannelOrder
  import opened Resample
  import opened Synchronise
  import opened SyncFinding

  /** A remapped table: every row passed through RemapRow. */
  predicate RemappedFrom(remapped: seq<seq<Option<real>>>, tab: seq<seq<Option<real>>>, order: seq<int>)
    requires IsPermutation(order, 1, Channels) && Rectangular(tab, CapColumns)
  {
    |remapped| == |tab| && forall r :: 0 <= r < |tab| ==> remapped[r] == RemapRow(tab[r], order)
  }

  /** Remapping keeps the timestamp column, so cleaning keeps the same
      rows and the same times. */
  lemma RemapKeepsTimes(remapped: seq<seq<Option<real>>>, tab: seq<seq<Option<real>>>, order: seq<int>)
    requires IsPermutation(order, 1, Channels) && Rectangular(tab, CapColumns)
    requires RemappedFrom(remapped, tab, order)
    ensures Rectangular(remapped, CapColumns)
    ensures ValidRows(remapped) == ValidRows(tab)
    ensures CleanTimes(remapped) == CleanTimes(tab)
  {
    assert Column(remapped, 0) == Column(tab, 0);
    assert ValidMask(remapped) == ValidMask(tab);
  }

  /** A reading missing from a remapped table is missing from the
      original: each remapped channel column is one of columns 5..12. */
  lemma RemapKeepsReadings(remapped: seq<seq<Option<real>>>, tab: seq<seq<Option<real>>>, order: seq<int>)
    requires IsPermutation(order, 1, Channels) && Rectangular(tab, CapColumns)
    requires RemappedFrom(remapped, tab, order)
    requires ReadingsPresent(tab)
    ensures Rectangular(remapped, CapColumns) && ReadingsPresent(remapped)
  {
    assert Rectangular(remapped, CapColumns);
    forall r, c | 0 <= r < |remapped| && BoardVersion <= c < BoardVersion + Channels && remapped[r][0].Some?
      ensures remapped[r][c].Some?
    {
      assert remapped[r][c] == tab[r][order[c - BoardVersion] + BoardVersion - 1];
    }
  }

  /** A reading missing from the original table is missing from the
      remapped one: each of columns 5..12 lands in some channel column. */
  lemma RemapLosesNoReading(remapped: seq<seq<Option<real>>>, tab: seq<seq<Option<real>>>, order: seq<int>)
    requires IsPermutation(order, 1, Channels) && Rectangular(tab, CapColumns)
    requires RemappedFrom(remapped, tab, order)
    requires Rectangular(remapped, CapColumns) && ReadingsPresent(remapped)
    ensures ReadingsPresent(tab)
  {
    forall r, c | 0 <= r < |tab| && BoardVersion <= c < BoardVersion + Channels && tab[r][0].Some?
      ensures tab[r][c].Some?
    {
      assert c - BoardVersion + 1 in order;
      var q := IndexOf(order, c - BoardVersion + 1);
      var out := remapped[r];
      assert out == RemapRow(tab[r], order);
      assert out[0] == tab[r][0];
      assert out[BoardVersion + q] == tab[r][order[q] + BoardVersion - 1];
    }
  }

  /** Channel j of a remapped table is physical channel order[j] of the
      original table: cleaning channel j of the remapped table reads the
      original column order[j] + 4, on the same rows. */
  lemma RemapSelectsChannel(remapped: seq<seq<Option<real>>>, tab: seq<seq<Option<real>>>, order: seq<int>, j: nat)
    requires IsPermutation(order, 1, Channels) && Rectangular(tab, CapColumns)
    requires RemappedFrom(remapped, tab, order)
    requires ReadingsPresent(tab) && j < Channels
    ensures Rectangular(remapped, CapColumns) && ReadingsPresent(remapped)
    ensures 1 <= order[j] <= Channels
    ensures CleanChannel(remapped, j) == CleanChannel(tab, order[j] - 1)
  {
    RemapKeepsTimes(remapped, tab, order);
    RemapKeepsReadings(remapped, tab, order);
    var rows := ValidRows(tab);
    forall i | 0 <= i < |rows|
      ensures remapped[rows[i]][BoardVersion + j] == tab[rows[i]][BoardVersion + order[j] - 1]
    {
    }
  }

  /** Every table of correct_ch_order's output is remapped from the
      matching input table. */
  lemma CorrectChOrderRemaps(tabs: seq<seq<seq<Option<real>>>>, order: seq<int>, i: nat)
    requires IsPermutation(order, 1, Channels)
    requires forall k :: 0 <= k < |tabs| ==> Rectangular(tabs[k], CapColumns)
    requires i < |tabs|
    ensures RemappedFrom(CorrectChOrder(tabs, order)[i], tabs[i], order)
  {
  }

  /** Readiness for resampling depends only on the timestamp column, which
      remapping keeps. */
  lemma RemapKeepsReadiness(tabs: seq<seq<seq<Option<real>>>>, futs: seq<ForceTable>, order: seq<int>)
    requires IsPermutation(order, 1, Channels)
    requires forall i :: 0 <= i < |tabs| ==> Rectangular(tabs[i], CapColumns)
    requires forall i :: 0 <= i < |tabs| && i < |futs| ==> ResampleReady(tabs[i], futs[i])
    ensures forall i :: 0 <= i < |tabs| && i < |futs| ==> ResampleReady(CorrectChOrder(tabs, order)[i], futs[i])
  {
    var remapped := CorrectChOrder(tabs, order);
    forall i | 0 <= i < |tabs| && i < |futs|
      ensures ResampleReady(remapped[i], futs[i])
    {
      CorrectChOrderRemaps(tabs, order, i);
      RemapKeepsTimes(remapped[i], tabs[i], order);
    }
  }

  /** The script end to end: an unsupported sensor type stops it before any
      table is touched, fewer force files than capacitance files stops it,
      and otherwise every run is remapped, resampled and synchronised, with
      synchronised series of equal length. */
  function Analyse(sensorType: int, tabs: seq<seq<seq<Option<real>>>>, futs: seq<ForceTable>): (r: Result<seq<SyncedRun>>)
    requires forall i :: 0 <= i < |tabs| ==> Rectangular(tabs[i], CapColumns)
    requires forall i :: 0 <= i < |tabs| && i < |futs| ==> ResampleReady(tabs[i], futs[i])
    ensures sensorType != 1 && sensorType != 3 ==> r == Failure(UnsupportedSensorType(sensorType))
    ensures |futs| < |tabs| ==> r.Failure?
    ensures r.Success? ==> (sensorType == 1 || sensorType == 3) && |r.value| == |tabs| <= |futs|
    ensures r.Success? ==> forall i :: 0 <= i < |r.value| ==> |r.value[i].cap| == |r.value[i].force|
  {
    match ChOrder(sensorType)
    case None => Failure(UnsupportedSensorType(sensorType))
    case Some(order) =>
      var remapped := CorrectChOrder(tabs, order);
      RemapKeepsReadiness(tabs, futs, order);
      var runs :- InterpCap(remapped, futs);
      SynchAligned(runs)
  }

  /** Run i goes through: its tables are ready for resampling, it
      resamples without error, and the corrected loop body synchronises
      it. */
  predicate RunGoesThrough(i: nat, tab: seq<seq<Option<real>>>, fut: ForceTable) {
    && ResampleReady(tab, fut)
    && ResampleRun(i, tab, fut).Success?
    && SyncRunAligned(i, ResampleRun(i, tab, fut).value).Success?
  }

  /** The converse of Analyse's failure cases: with a supported sensor
      type, a force table for every capacitance table and every remapped
      run going through, the script succeeds. */
  lemma AnalyseSucceeds(sensorType: int, tabs: seq<seq<seq<Option<real>>>>, futs: seq<ForceTable>)
    requires forall i :: 0 <= i < |tabs| ==> Rectangular(tabs[i], CapColumns)
    requires forall i :: 0 <= i < |tabs| && i < |futs| ==> ResampleReady(tabs[i], futs[i])
    requires (sensorType == 1 || sensorType == 3) && |tabs| <= |futs|
    requires forall i :: 0 <= i < |tabs| ==>
      RunGoesThrough(i, CorrectChOrder(tabs, ChOrder(sensorType).value)[i], futs[i])
    ensures Analyse(sensorType, tabs, futs).Success?
  {
    var order := ChOrder(sensorType).value;
    var remapped := CorrectChOrder(tabs, order);
    RemapKeepsReadiness(tabs, futs, order);
    InterpCapSucceeds(remapped, futs);
    var runs := InterpCap(remapped, futs).value;
    forall i | 0 <= i < |runs|
      ensures SyncRunAligned(i, runs[i]).Success?
    {
      assert RunGoesThrough(i, remapped[i], futs[i]);
      assert runs[i] == ResampleRun(i, remapped[i], futs[i]).value;
    }
    assert Analyse(sensorType, tabs, futs) == SynchAligned(runs);
  }

  /** On success, run i of the output is the corrected synchronisation of
      run i resampled from the remapped table i and force table i. */
  lemma AnalyseRun(sensorType: int, tabs: seq<seq<seq<Option<real>>>>, futs: seq<ForceTable>, i: nat)
    requires forall k :: 0 <= k < |tabs| ==> Rectangular(tabs[k], CapColumns)
    requires forall k :: 0 <= k < |tabs| && k < |futs| ==> ResampleReady(tabs[k], futs[k])
    requires Analyse(sensorType, tabs, futs).Success? && i < |tabs|
    ensures ChOrder(sensorType).Some? && i < |futs|
    ensures ResampleReady(CorrectChOrder(tabs, ChOrder(sensorType).value)[i], futs[i])
    ensures var run := ResampleRun(i, CorrectChOrder(tabs, ChOrder(sensorType).value)[i], futs[i]);
      run.Success? && SyncRunAligned(i, run.value) == Success(Analyse(sensorType, tabs, futs).value[i])
  {
    var order := ChOrder(sensorType).value;
    RemapKeepsReadiness(tabs, futs, order);
    var runs := InterpCap(CorrectChOrder(tabs, order), futs).value;
    assert Analyse(sensorType, tabs, futs) == SynchAligned(runs);
  }
}
