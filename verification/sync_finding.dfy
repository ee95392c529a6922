/** The two synchronised series of a run are meant to have the same length
    (the script cuts both at loc_f "to ensure the same length"), but when
    the force is the series shifted, the shifted force can be shorter than
    loc_f while the capacitance is not, and the outputs differ in length.
    This module exhibits such a run for the loop as written and defines
    the corrected loop, which cuts both series at their common length. */
module SyncFinding {
  import opened Base
  import opened Series
  import opened Interpolation
  import opened Resample
  import opened Synchronise

  /** Length of a two-second recording at 200 Hz. */
  const RunRows: nat := 2000

  /** A run whose capacitance and force both cover 2000 grid rows: channel 0
      peaks at row 1000, every other channel stays at 0, and the force
      peaks at row 1800. */
  function LatePeakRun(): (r: Resampled)
    ensures r.Shaped() && |r.cap| == |r.force| == RunRows
    ensures OnGrid(r.tc) && OnGrid(r.tf)
  {
    var times := seq(RunRows, k requires 0 <= k => k as real * Step);
    Resampled(
      times,
      seq(RunRows, k => seq(Channels, j => if j == 0 && k == 1000 then 1.0 else 0.0)),
      times,
      seq(RunRows, k => if k == 1800 then 1.0 else 0.0))
  }

  /** In LatePeakRun channel 0 reaches 1 and every other channel stays
      at 0. */
  lemma LatePeakMaxima(j: nat)
    requires j < Channels
    ensures var r := LatePeakRun();
      MaskedMax(r.cap, j) == if j == 0 then 1.0 else 0.0
  {
    var r := LatePeakRun();
    var col := Column(r.cap, j);
    var i :| 0 <= i < |col| && col[i] == Max(col);
    assert col[0] <= Max(col);
    if j == 0 {
      assert col[1000] <= Max(col);
    }
  }

  /** In LatePeakRun the reference channel is 0. */
  lemma LatePeakReference()
    ensures ReferenceChannel(LatePeakRun().cap) == 0
  {
    var r := LatePeakRun();
    LatePeakMaxima(0);
    LatePeakMaxima(ReferenceChannel(r.cap));
  }

  /** In LatePeakRun channel 0 peaks at row 1000. */
  lemma LatePeakCapRow()
    ensures ArgMax(Column(LatePeakRun().cap, 0)) == 1000
  {
    var col := Column(LatePeakRun().cap, 0);
    var locC := ArgMax(col);
    assert col[locC] >= col[1000];
  }

  /** In LatePeakRun the force peaks at row 1800, so the offset is
      1000 - 1800 = -800 rows: the force is the series shifted. */
  lemma LatePeakOffset()
    ensures ArgMax(LatePeakRun().force) == 1800
    ensures Offset(LatePeakRun(), 0, 1800) == -800
  {
    var r := LatePeakRun();
    var locF := ArgMax(r.force);
    assert r.force[locF] >= r.force[1800];
    LatePeakCapRow();
    OnGridOffset(r, 0, 1800);
  }

  /** As written, a run shaped like LatePeakRun synchronises into 1300
      capacitance rows but only 700 force rows: the force, shifted by 800
      rows, has only 1200 rows left, fewer than loc_f = 1800, so the two
      cuts at loc_f differ. */
  lemma UnequalLengthsAsWritten(r: Resampled)
    requires r.Shaped() && |r.cap| == |r.force| == RunRows
    requires ReferenceChannel(r.cap) == 0 && ArgMax(r.force) == 1800
    requires Offset(r, 0, 1800) == -800
    ensures SyncRun(0, r).Success?
    ensures SyncRun(0, r).value.offset == -800
    ensures |SyncRun(0, r).value.cap| == 1300 && |SyncRun(0, r).value.force| == 700
  {
  }

  /** LatePeakRun is such a run. */
  lemma LatePeakUnequal()
    ensures var s := SyncRun(0, LatePeakRun());
      s.Success? && |s.value.cap| == 1300 && |s.value.force| == 700
  {
    LatePeakReference();
    LatePeakOffset();
    UnequalLengthsAsWritten(LatePeakRun());
  }

  /** Rows both shifted series can supply: loc_f, or fewer if either
      series runs out first. */
  function CommonCut(r: Resampled, locF: nat, offset: int): (n: nat)
    requires r.Shaped()
    ensures n <= locF
    ensures n <= |r.cap| - CapShift(offset) || n == 0
    ensures n <= |r.force| - ForceShift(offset) || n == 0
    ensures n == 0 || n == locF || n == |r.cap| - CapShift(offset) || n == |r.force| - ForceShift(offset)
  {
    MaxInt(0, MinInt(locF, MinInt(|r.cap| - CapShift(offset), |r.force| - ForceShift(offset))))
  }

  /** Cut at the common length, both outputs have that many rows less the
      500-row tail. */
  lemma CommonCutLengths(r: Resampled, locF: nat, offset: int)
    requires r.Shaped()
    ensures var cut := CommonCut(r, locF, offset);
      |CapOutput(r, cut, offset)| == |ForceOutput(r, cut, offset)| == MaxInt(0, cut - TailRows)
  {
  }

  /** One iteration of synch's loop with both series cut at their common
      length: the same errors, reference channel, peak, offset, maxima and
      shorted channels as the loop as written, and outputs of equal
      length. */
  function SyncRunAligned(run: nat, r: Resampled): (s: Result<SyncedRun>)
    requires r.Shaped()
    ensures s.Success? <==> SyncRun(run, r).Success?
    ensures s.Failure? ==> s == SyncRun(run, r)
    ensures s.Success? ==> |s.value.cap| == |s.value.force|
    ensures s.Success? ==>
      var w := SyncRun(run, r).value;
      && s.value.maxCap == w.maxCap && s.value.shorted == w.shorted
      && s.value.reference == w.reference && s.value.forcePeak == w.forcePeak && s.value.offset == w.offset
    ensures s.Success? ==>
      var w := SyncRun(run, r).value;
      w.forcePeak <= |r.cap| - CapShift(w.offset) && w.forcePeak <= |r.force| - ForceShift(w.offset) ==>
      s == SyncRun(run, r)
  {
    var res := SyncRun(run, r);
    if res.Failure? then res
    else
      var w := res.value;
      var cut := CommonCut(r, w.forcePeak, w.offset);
      CommonCutLengths(r, w.forcePeak, w.offset);
      Success(w.(cap := CapOutput(r, cut, w.offset), force := ForceOutput(r, cut, w.offset)))
  }

  /** On the 200 Hz grid, when the capacitance is the series shifted, the
      loop as written already keeps equal lengths and the corrected loop
      gives the same result. */
  lemma AlignedAgreesOnGridCapShift(run: nat, r: Resampled, s: SyncedRun)
    requires r.Shaped() && SyncRun(run, r) == Success(s)
    requires OnGrid(r.tc) && OnGrid(r.tf) && s.offset > 0
    ensures SyncRunAligned(run, r) == Success(s)
  {
    AlignedOnGrid(r, s.reference, s.forcePeak);
  }

  /** synch with the corrected loop body: every run in order, stopping at
      the first that fails. */
  function SynchAligned(runs: seq<Resampled>): (s: Result<seq<SyncedRun>>)
    requires forall i :: 0 <= i < |runs| ==> runs[i].Shaped()
    ensures s.Success? <==> forall i :: 0 <= i < |runs| ==> SyncRunAligned(i, runs[i]).Success?
    ensures s.Success? ==> |s.value| == |runs|
    ensures s.Success? ==> forall i :: 0 <= i < |runs| ==> SyncRunAligned(i, runs[i]) == Success(s.value[i])
    ensures s.Success? ==> forall i :: 0 <= i < |runs| ==> |s.value[i].cap| == |s.value[i].force|
  {
    var rs := seq(|runs|, i requires 0 <= i < |runs| => SyncRunAligned(i, runs[i]));
    assert forall i :: 0 <= i < |runs| ==> rs[i] == SyncRunAligned(i, runs[i]);
    Collect(rs)
  }
}
