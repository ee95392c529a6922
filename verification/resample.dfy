/** Resampling (eb_analysis.py `interp_cap`): for each run, the force
    file's timestamps become elapsed seconds, capacitance rows without a
    timestamp are dropped, each channel is shifted so that its first valid
    reading is 0, and both series are interpolated onto 200 Hz grids that
    start at 0. */
module Resample {
  import opened Base
  import opened Series
  import opened Interpolation

  /** The force file's timestamp column: wall-clock datetimes (in seconds,
      `None` for NaT) or plain relative values. */
  datatype Stamps = Clock(clock: seq<Option<real>>) | Relative(relative: seq<real>)

  /** One force file: the force column (column 1) and the timestamp
      column (column 2). */
  datatype ForceTable = ForceTable(force: seq<real>, stamps: Stamps) {
    /** Both columns come from one table, so they are equally long. */
    predicate WellFormed() {
      |force| == (match stamps case Clock(c) => |c| case Relative(t) => |t|)
    }
  }

  /** A run after resampling: the capacitance grid and its rows of 8
      channel values, the force grid and its force values. */
  datatype Resampled = Resampled(tc: seq<real>, cap: seq<seq<real>>, tf: seq<real>, force: seq<real>) {
    predicate Shaped() {
      |cap| == |tc| && Rectangular(cap, Channels) && |force| == |tf|
    }
  }

  /** `time_col.diff().fillna(Timedelta(0))`: successive clock
      differences, 0 wherever either stamp is NaT and for the first row. */
  function ClockDiffs(at: seq<Option<real>>): (d: seq<real>)
    ensures |d| == |at|
  {
    seq(|at|, k requires 0 <= k < |at| =>
      if k > 0 && at[k].Some? && at[k - 1].Some? then at[k].value - at[k - 1].value else 0.0)
  }

  /** The force elapsed-time vector: the cumulative sum of the filled clock
      differences, or `concatenate([0], cumsum(diff(t)))` for relative
      timestamps. */
  function ForceElapsed(stamps: Stamps): (e: seq<real>)
    ensures stamps.Clock? ==> |e| == |stamps.clock|
    ensures stamps.Relative? ==> |e| == MaxInt(1, |stamps.relative|)
    ensures |e| > 0 ==> e[0] == 0.0
  {
    match stamps
    case Clock(at) =>
      var d := ClockDiffs(at);
      assert |d| > 0 ==> d[..1][..0] == [] && Sum(d[..1]) == d[0];
      CumSum(d)
    case Relative(t) => [0.0] + CumSum(Diff(t))
  }

  /** Relative timestamps: elapsed time is each stamp minus the first,
      because the summed differences telescope. */
  lemma RelativeElapsedTelescopes(t: seq<real>)
    requires |t| > 0
    ensures |ForceElapsed(Relative(t))| == |t|
    ensures forall k :: 0 <= k < |t| ==> ForceElapsed(Relative(t))[k] == t[k] - t[0]
  {
    forall k | 0 < k < |t|
      ensures ForceElapsed(Relative(t))[k] == t[k] - t[0]
    {
      SumOfDiffsTelescopes(t, k);
    }
  }

  /** Clock timestamps with no NaT: elapsed time is each stamp minus the
      first. */
  lemma {:induction false} ClockElapsedTelescopes(at: seq<Option<real>>, k: nat)
    requires k < |at|
    requires forall i :: 0 <= i < |at| ==> at[i].Some?
    ensures ForceElapsed(Clock(at))[k] == at[k].value - at[0].value
  {
    var d := ClockDiffs(at);
    if k > 0 {
      ClockElapsedTelescopes(at, k - 1);
      assert d[..k + 1][..k] == d[..k];
    } else {
      assert d[..1] == [d[0]];
    }
  }

  /** A NaT stamp adds no time: elapsed time stands still at that row. */
  lemma ClockElapsedHoldsAtGap(at: seq<Option<real>>, k: nat)
    requires 0 < k < |at| && at[k].None?
    ensures ForceElapsed(Clock(at))[k] == ForceElapsed(Clock(at))[k - 1]
  {
    var d := ClockDiffs(at);
    assert d[..k + 1][..k] == d[..k];
  }

  /** A NaT anywhere in a clock column of two or more stamps makes two
      successive elapsed times equal, so the elapsed times do not rise
      strictly and np.interp's demand on its sample points fails. */
  lemma ClockGapRepeatsElapsed(at: seq<Option<real>>, k: nat)
    requires 2 <= |at| && k < |at| && at[k].None?
    ensures !StrictlyIncreasing(ForceElapsed(Clock(at)))
  {
    var e := ForceElapsed(Clock(at));
    if k > 0 {
      ClockElapsedHoldsAtGap(at, k);
      assert e[k - 1] == e[k];
    } else {
      var d := ClockDiffs(at);
      assert d[..2][..1] == d[..1];
      assert e[1] == e[0];
    }
  }

  /** `~np.isnan(cap_time)`: which capacitance rows have a timestamp. */
  function ValidMask(tab: seq<seq<Option<real>>>): (mask: seq<bool>)
    requires Rectangular(tab, CapColumns)
    ensures |mask| == |tab|
    ensures forall r :: 0 <= r < |tab| ==> (mask[r] <==> tab[r][0].Some?)
  {
    seq(|tab|, r requires 0 <= r < |tab| => tab[r][0].Some?)
  }

  /** The rows that survive cleaning, in their original order. */
  function ValidRows(tab: seq<seq<Option<real>>>): (rows: seq<nat>)
    requires Rectangular(tab, CapColumns)
    ensures |rows| == Count(ValidMask(tab))
    ensures forall i :: 0 <= i < |rows| ==> rows[i] < |tab| && tab[rows[i]][0].Some?
    ensures forall i, j :: 0 <= i < j < |rows| ==> rows[i] < rows[j]
    ensures forall r :: 0 <= r < |tab| && tab[r][0].Some? ==> r in rows
  {
    var mask := ValidMask(tab);
    KeepAt(Column(tab, 0), mask);
    KeptIndices(mask)
  }

  /** `cap_time[valid_mask]`: the timestamps that are present. */
  function CleanTimes(tab: seq<seq<Option<real>>>): (t: seq<real>)
    requires Rectangular(tab, CapColumns)
    ensures |t| == Count(ValidMask(tab))
    ensures forall i :: 0 <= i < |t| ==> t[i] == tab[ValidRows(tab)[i]][0].value
  {
    var mask := ValidMask(tab);
    var kept := Keep(Column(tab, 0), mask);
    KeepAt(Column(tab, 0), mask);
    seq(|kept|, i requires 0 <= i < |kept| => kept[i].value)
  }

  /** Every channel has a reading on every row that has a timestamp. */
  predicate ReadingsPresent(tab: seq<seq<Option<real>>>)
    requires Rectangular(tab, CapColumns)
  {
    forall r, c :: 0 <= r < |tab| && BoardVersion <= c < BoardVersion + Channels && tab[r][0].Some? ==>
      tab[r][c].Some?
  }

  /** `cap_data[valid_mask]` for channel j (column j + v): the same mask
      as the timestamps, so the same rows in the same order. */
  function CleanChannel(tab: seq<seq<Option<real>>>, j: nat): (x: seq<real>)
    requires Rectangular(tab, CapColumns) && ReadingsPresent(tab) && j < Channels
    ensures |x| == |CleanTimes(tab)|
    ensures forall i :: 0 <= i < |x| ==> x[i] == tab[ValidRows(tab)[i]][BoardVersion + j].value
  {
    var mask := ValidMask(tab);
    var column := Column(tab, BoardVersion + j);
    var kept := Keep(column, mask);
    KeepAt(column, mask);
    assert forall i :: 0 <= i < |kept| ==> tab[KeptIndices(mask)[i]][0].Some?;
    assert forall i :: 0 <= i < |kept| ==> kept[i] == tab[KeptIndices(mask)[i]][BoardVersion + j];
    seq(|kept|, i requires 0 <= i < |kept| => kept[i].value)
  }

  /** Baseline removal: every value minus the first one. */
  function Baselined(x: seq<real>): (y: seq<real>)
    requires |x| > 0
    ensures |y| == |x| && y[0] == 0.0
    ensures forall i, k :: 0 <= i < |x| && 0 <= k < |x| ==> y[i] - y[k] == x[i] - x[k]
  {
    seq(|x|, i requires 0 <= i < |x| => x[i] - x[0])
  }

  /** What np.interp needs of one run: a 16-column capacitance table whose
      present timestamps rise strictly, a force table whose columns have
      equal length and whose elapsed times rise strictly. */
  predicate ResampleReady(tab: seq<seq<Option<real>>>, fut: ForceTable) {
    && Rectangular(tab, CapColumns)
    && fut.WellFormed()
    && StrictlyIncreasing(CleanTimes(tab))
    && StrictlyIncreasing(ForceElapsed(fut.stamps))
  }

  /** The resampled capacitance rows: grid point k, channel j is the
      baselined channel interpolated at tc[k]. */
  function CapRows(tab: seq<seq<Option<real>>>, tc: seq<real>): (rows: seq<seq<real>>)
    requires Rectangular(tab, CapColumns) && ReadingsPresent(tab)
    requires |CleanTimes(tab)| > 0 && StrictlyIncreasing(CleanTimes(tab))
    ensures |rows| == |tc| && Rectangular(rows, Channels)
  {
    var t := CleanTimes(tab);
    seq(|tc|, k requires 0 <= k < |tc| =>
      seq(Channels, j requires 0 <= j < Channels => Interp(t, Baselined(CleanChannel(tab, j)), tc[k])))
  }

  /** One iteration of interp_cap's loop, for run `run`. */
  function ResampleRun(run: nat, tab: seq<seq<Option<real>>>, fut: ForceTable): (r: Result<Resampled>)
    requires ResampleReady(tab, fut)
    ensures r.Success? <==>
      |CleanTimes(tab)| > 0 && ReadingsPresent(tab) && |ForceElapsed(fut.stamps)| == |fut.force| > 0
    ensures |CleanTimes(tab)| == 0 ==> r == Failure(NoValidCapTime(run))
    ensures r.Success? ==> r.value.Shaped() && OnGrid(r.value.tc) && OnGrid(r.value.tf)
    ensures r.Success? ==>
      |r.value.tc| == GridLength(CleanTimes(tab)[|CleanTimes(tab)| - 1]) &&
      |r.value.tf| == GridLength(ForceElapsed(fut.stamps)[|fut.force| - 1])
  {
    var elapsed := ForceElapsed(fut.stamps);
    var t := CleanTimes(tab);
    if |t| == 0 then Failure(NoValidCapTime(run))
    else if |elapsed| == 0 then Failure(NoForceTime(run))
    else if !ReadingsPresent(tab) then Failure(MissingReading(run))
    else if |elapsed| != |fut.force| then Failure(ForceLengthMismatch(run))
    else Success(Resampling(tab, fut))
  }

  /** The successful branch of interp_cap's loop body: both series on
      their own 200 Hz grid, each grid running to that series' last time. */
  function Resampling(tab: seq<seq<Option<real>>>, fut: ForceTable): (r: Resampled)
    requires ResampleReady(tab, fut)
    requires |CleanTimes(tab)| > 0 && ReadingsPresent(tab) && |ForceElapsed(fut.stamps)| == |fut.force| > 0
    ensures r.Shaped() && OnGrid(r.tc) && OnGrid(r.tf)
    ensures |r.tc| == GridLength(CleanTimes(tab)[|CleanTimes(tab)| - 1])
    ensures |r.tf| == GridLength(ForceElapsed(fut.stamps)[|fut.force| - 1])
  {
    var t := CleanTimes(tab);
    var elapsed := ForceElapsed(fut.stamps);
    var tc := Grid(t[|t| - 1]);
    var tf := Grid(elapsed[|elapsed| - 1]);
    Resampled(tc, CapRows(tab, tc), tf, InterpAll(elapsed, fut.force, tf))
  }

  /** Cleaning keeps rows aligned: the i-th clean timestamp and the i-th
      clean reading of every channel come from the same original row, and
      those rows are exactly the timestamped ones, in order. */
  lemma CleanRowsAligned(tab: seq<seq<Option<real>>>, j: nat)
    requires Rectangular(tab, CapColumns) && ReadingsPresent(tab) && j < Channels
    ensures |CleanChannel(tab, j)| == |CleanTimes(tab)| == |ValidRows(tab)|
    ensures forall i :: 0 <= i < |ValidRows(tab)| ==>
      tab[ValidRows(tab)[i]][0] == Some(CleanTimes(tab)[i]) &&
      tab[ValidRows(tab)[i]][BoardVersion + j] == Some(CleanChannel(tab, j)[i])
  {
  }

  /** Every resampled capacitance value lies within the range of that
      channel's baselined samples. */
  lemma ResampledWithinSamples(run: nat, tab: seq<seq<Option<real>>>, fut: ForceTable, k: nat, j: nat)
    requires ResampleReady(tab, fut)
    requires ResampleRun(run, tab, fut).Success?
    requires k < |ResampleRun(run, tab, fut).value.cap| && j < Channels
    ensures Min(Baselined(CleanChannel(tab, j))) <= ResampleRun(run, tab, fut).value.cap[k][j]
    ensures ResampleRun(run, tab, fut).value.cap[k][j] <= Max(Baselined(CleanChannel(tab, j)))
  {
  }

  /** A grid point that coincides with a clean timestamp reproduces that
      sample, baseline removed. */
  lemma ResampledAtSampleTime(run: nat, tab: seq<seq<Option<real>>>, fut: ForceTable, k: nat, i: nat, j: nat)
    requires ResampleReady(tab, fut)
    requires ResampleRun(run, tab, fut).Success?
    requires k < |ResampleRun(run, tab, fut).value.tc| && j < Channels && i < |CleanTimes(tab)|
    requires ResampleRun(run, tab, fut).value.tc[k] == CleanTimes(tab)[i]
    ensures ResampleRun(run, tab, fut).value.cap[k][j] == CleanChannel(tab, j)[i] - CleanChannel(tab, j)[0]
  {
    InterpAtSample(CleanTimes(tab), Baselined(CleanChannel(tab, j)), i);
  }

  /** When the first valid timestamp is not negative, the first resampled
      row is all zeros: grid time 0 sits at or before the first sample,
      where the interpolant is the baselined first reading. */
  lemma FirstResampledRowIsZero(run: nat, tab: seq<seq<Option<real>>>, fut: ForceTable)
    requires ResampleReady(tab, fut)
    requires ResampleRun(run, tab, fut).Success?
    requires CleanTimes(tab)[0] >= 0.0
    ensures |ResampleRun(run, tab, fut).value.cap| > 0
    ensures forall j :: 0 <= j < Channels ==> ResampleRun(run, tab, fut).value.cap[0][j] == 0.0
  {
    var t := CleanTimes(tab);
    assert t[0] <= t[|t| - 1];
  }

  /** The resampled force passes through every recorded force value whose
      elapsed time falls on the grid. */
  lemma ResampledForceAtSampleTime(run: nat, tab: seq<seq<Option<real>>>, fut: ForceTable, k: nat, i: nat)
    requires ResampleReady(tab, fut)
    requires ResampleRun(run, tab, fut).Success?
    requires k < |ResampleRun(run, tab, fut).value.tf| && i < |fut.force|
    requires ResampleRun(run, tab, fut).value.tf[k] == ForceElapsed(fut.stamps)[i]
    ensures ResampleRun(run, tab, fut).value.force[k] == fut.force[i]
  {
    InterpAtSample(ForceElapsed(fut.stamps), fut.force, i);
  }

  /** Run i on its own: capacitance table i paired with force table i,
      which must exist. */
  function RunResult(tabs: seq<seq<seq<Option<real>>>>, futs: seq<ForceTable>, i: nat): (r: Result<Resampled>)
    requires i < |tabs|
    requires i < |futs| ==> ResampleReady(tabs[i], futs[i])
    ensures i >= |futs| ==> r == Failure(MissingForceFile(i))
    ensures i < |futs| ==> r == ResampleRun(i, tabs[i], futs[i])
    ensures r.Success? ==> r.value.Shaped() && OnGrid(r.value.tc) && OnGrid(r.value.tf)
  {
    if i >= |futs| then Failure(MissingForceFile(i)) else ResampleRun(i, tabs[i], futs[i])
  }

  /** The runs of interp_cap's loop, one per capacitance table. */
  function RunResults(tabs: seq<seq<seq<Option<real>>>>, futs: seq<ForceTable>): (rs: seq<Result<Resampled>>)
    requires forall i :: 0 <= i < |tabs| && i < |futs| ==> ResampleReady(tabs[i], futs[i])
    ensures |rs| == |tabs|
    ensures forall i :: 0 <= i < |tabs| ==> rs[i] == RunResult(tabs, futs, i)
  {
    seq(|tabs|, i requires 0 <= i < |tabs| => RunResult(tabs, futs, i))
  }

  /** interp_cap: every run, one per capacitance table, stopping at the
      first run that fails with that run's error. */
  function InterpCap(tabs: seq<seq<seq<Option<real>>>>, futs: seq<ForceTable>): (r: Result<seq<Resampled>>)
    requires forall i :: 0 <= i < |tabs| && i < |futs| ==> ResampleReady(tabs[i], futs[i])
    ensures r.Success? ==> |r.value| == |tabs| && |tabs| <= |futs|
    ensures r.Success? ==> forall i :: 0 <= i < |tabs| ==> ResampleRun(i, tabs[i], futs[i]) == Success(r.value[i])
    ensures r.Success? ==> forall i :: 0 <= i < |tabs| ==>
      r.value[i].Shaped() && OnGrid(r.value[i].tc) && OnGrid(r.value[i].tf)
    ensures |futs| < |tabs| ==> r.Failure?
    ensures r.Failure? ==>
      exists i :: 0 <= i < |tabs| && RunResult(tabs, futs, i) == Failure(r.error) && FirstRunsSucceed(tabs, futs, i)
  {
    var rs := RunResults(tabs, futs);
    assert |futs| < |tabs| ==> rs[|futs|].Failure?;
    var r := Collect(rs);
    assert r.Failure? ==> exists i :: 0 <= i < |rs| && rs[i] == Failure(r.error) && FirstRunsSucceed(tabs, futs, i);
    r
  }

  /** With a force table for every capacitance table and every run
      resampling without error, interp_cap succeeds. */
  lemma InterpCapSucceeds(tabs: seq<seq<seq<Option<real>>>>, futs: seq<ForceTable>)
    requires forall i :: 0 <= i < |tabs| && i < |futs| ==> ResampleReady(tabs[i], futs[i])
    requires |tabs| <= |futs|
    requires forall i :: 0 <= i < |tabs| ==> ResampleRun(i, tabs[i], futs[i]).Success?
    ensures InterpCap(tabs, futs).Success?
  {
    var rs := RunResults(tabs, futs);
    assert forall i :: 0 <= i < |rs| ==> rs[i].Success?;
  }

  /** Runs 0, ..., i - 1 all resample without error. */
  predicate FirstRunsSucceed(tabs: seq<seq<seq<Option<real>>>>, futs: seq<ForceTable>, i: nat)
    requires forall k :: 0 <= k < |tabs| && k < |futs| ==> ResampleReady(tabs[k], futs[k])
    requires i <= |tabs|
  {
    forall j :: 0 <= j < i ==> RunResult(tabs, futs, j).Success?
  }
}
