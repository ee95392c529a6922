/** Peak-alignment synchronisation (eb_analysis.py `synch`, without its
    plotting loop). For each resampled run: flag shorted channels, pick the
    reference channel from a scratch copy with those channels zeroed, shift
    capacitance or force so that the reference channel's peak lines up with
    the force peak, cut both series at the force-peak index, convert force
    to kPa, record the per-channel maxima and drop a 500-row tail. */
module Synchronise {
  import opened Base
  import opened Series
  import opened Interpolation
  import opened Resample

  /** One row of a synchronised series: a time and its value(s). */
  datatype Sample<T> = Sample(time: real, value: T)

  /** One entry of `test` plus the run's row of `c` and the intermediate
      values the loop computes. */
  datatype SyncedRun = SyncedRun(
    cap: seq<Sample<seq<real>>>, // test_cap: time and the 8 channels
    force: seq<Sample<real>>,    // test_fut: time and pressure in kPa
    maxCap: seq<real>,           // c[i, :]
    shorted: set<nat>,           // shorted_ch
    reference: nat,              // chan
    forcePeak: nat,              // loc_f
    offset: int)                 // the signed sample offset

  /** `np.where(temp_max_cap > 10)`: channels whose maximum exceeds the
      threshold. */
  function Shorted(colMax: seq<real>): (s: set<nat>)
    requires |colMax| == Channels
    ensures forall j: nat :: j in s <==> j < Channels && colMax[j] > ShortThreshold
  {
    set j: nat | j < Channels && colMax[j] > ShortThreshold
  }

  /** `temp_run[i][0][:, shorted_ch] = 0` on the scratch copy. */
  function ZeroColumns(m: seq<seq<real>>, s: set<nat>): (z: seq<seq<real>>)
    requires Rectangular(m, Channels)
    ensures |z| == |m| && Rectangular(z, Channels)
    ensures forall k, j :: 0 <= k < |m| && 0 <= j < Channels ==> z[k][j] == if j in s then 0.0 else m[k][j]
  {
    seq(|m|, k requires 0 <= k < |m| =>
      seq(Channels, j requires 0 <= j < Channels => if j in s then 0.0 else m[k][j]))
  }

  /** Reference reading of the reference-channel criterion: a channel's
      maximum, or 0 if that maximum marks it as shorted. */
  function MaskedMax(m: seq<seq<real>>, j: nat): real
    requires |m| > 0 && Rectangular(m, Channels) && j < Channels
  {
    var top := Max(Column(m, j));
    if top > ShortThreshold then 0.0 else top
  }

  /** Zeroing the shorted columns of the scratch copy turns their maxima
      into 0 and leaves every other maximum as it was. */
  lemma ZeroedColumnMax(m: seq<seq<real>>)
    requires |m| > 0 && Rectangular(m, Channels)
    ensures forall j :: 0 <= j < Channels ==>
      ColumnMax(ZeroColumns(m, Shorted(ColumnMax(m))))[j] == MaskedMax(m, j)
  {
    var s := Shorted(ColumnMax(m));
    var z := ZeroColumns(m, s);
    forall j | 0 <= j < Channels
      ensures ColumnMax(z)[j] == MaskedMax(m, j)
    {
      assert ColumnMax(z)[j] in Column(z, j);
      assert ColumnMax(m)[j] in Column(m, j);
      assert z[0][j] <= ColumnMax(z)[j];
      if j !in s {
        assert Column(z, j) == Column(m, j);
      }
    }
  }

  /** `x / SA / 1000`: force in N to pressure in kPa. */
  function Normalise(x: real): (p: real)
    ensures p * SurfaceArea * 1000.0 == x
  {
    x / SurfaceArea / 1000.0
  }

  /** Rows the capacitance series loses from its start for a given offset. */
  function CapShift(offset: int): nat {
    if offset > 0 then offset else 0
  }

  /** Rows the force series loses from its start for a given offset. */
  function ForceShift(offset: int): nat {
    if offset > 0 then 0 else -offset
  }

  /** The time column of a synchronised series. */
  function Times<T>(xs: seq<Sample<T>>): (ts: seq<real>)
    ensures |ts| == |xs| && forall k :: 0 <= k < |xs| ==> ts[k] == xs[k].time
  {
    seq(|xs|, k requires 0 <= k < |xs| => xs[k].time)
  }

  /** `column_stack([times[shift:] - shift/200, vals[shift:]])[:cut]`: drop
      `shift` rows, move the remaining times back by `shift` samples, and
      keep at most `cut` rows. Times on the grid stay on the grid. */
  function Shifted<T>(times: seq<real>, vals: seq<T>, shift: nat, cut: nat): (out: seq<Sample<T>>)
    requires |times| == |vals|
    ensures |out| == MinInt(cut, MaxInt(0, |times| - shift))
    ensures forall k :: 0 <= k < |out| ==>
      out[k] == Sample(times[k + shift] - shift as real * (1.0 / Rate), vals[k + shift])
    ensures OnGrid(times) ==> OnGrid(Times(out))
  {
    var t := Take(Drop(times, shift), cut);
    var v := Take(Drop(vals, shift), cut);
    var out := seq(|t|, k requires 0 <= k < |t| => Sample(t[k] - shift as real * (1.0 / Rate), v[k]));
    assert OnGrid(times) ==> OnGrid(Times(out)) by {
      if OnGrid(times) {
        forall k | 0 <= k < |out|
          ensures Times(out)[k] == k as real * Step
        {
          var i := k + shift;
          assert times[i] == i as real * Step;
        }
      }
    }
    out
  }

  /** Dropping the tail of a series keeps its times on the grid. */
  lemma DropTailOnGrid<T>(xs: seq<Sample<T>>, n: nat)
    requires n > 0 && OnGrid(Times(xs))
    ensures OnGrid(Times(DropTail(xs, n)))
  {
    var ys := DropTail(xs, n);
    forall k | 0 <= k < |ys|
      ensures Times(ys)[k] == k as real * Step
    {
      assert Times(xs)[k] == k as real * Step;
    }
  }

  /** shorted_ch for a run's resampled capacitance. */
  function ShortedOf(m: seq<seq<real>>): (s: set<nat>)
    requires |m| > 0 && Rectangular(m, Channels)
    ensures forall j: nat :: j in s <==> j < Channels && Max(Column(m, j)) > ShortThreshold
  {
    Shorted(ColumnMax(m))
  }

  /** chan: argmax over the maxima of the scratch copy whose shorted
      columns are zeroed. It is the first channel holding the largest
      masked maximum. */
  function ReferenceChannel(m: seq<seq<real>>): (chan: nat)
    requires |m| > 0 && Rectangular(m, Channels)
    ensures chan < Channels
    ensures forall j :: 0 <= j < Channels ==> MaskedMax(m, j) <= MaskedMax(m, chan)
    ensures forall j :: 0 <= j < chan ==> MaskedMax(m, j) < MaskedMax(m, chan)
  {
    ZeroedColumnMax(m);
    ArgMax(ColumnMax(ZeroColumns(m, ShortedOf(m))))
  }

  /** `int((t_c[loc_c[chan]] - t_f[loc_f]) * 200)`. */
  function Offset(r: Resampled, chan: nat, locF: nat): (offset: int)
    requires r.Shaped() && |r.cap| > 0 && chan < Channels && locF < |r.tf|
    ensures var d := (r.tc[ArgMax(Column(r.cap, chan))] - r.tf[locF]) * Rate;
      && (0.0 <= d ==> 0 <= offset && offset as real <= d < offset as real + 1.0)
      && (d < 0.0 ==> offset <= 0 && offset as real - 1.0 < d <= offset as real)
  {
    Trunc((r.tc[ArgMax(Column(r.cap, chan))] - r.tf[locF]) * Rate)
  }

  /** `futs / SA / 1000` over a whole series. */
  function Pressure(force: seq<real>): (p: seq<real>)
    ensures |p| == |force|
    ensures forall k :: 0 <= k < |p| ==> p[k] * SurfaceArea * 1000.0 == force[k]
  {
    seq(|force|, k requires 0 <= k < |force| => Normalise(force[k]))
  }

  /** test_cap: the capacitance rows shifted by CapShift(offset), cut at
      loc_f, with the last 500 rows removed. */
  function CapOutput(r: Resampled, locF: nat, offset: int): (out: seq<Sample<seq<real>>>)
    requires r.Shaped()
    ensures |out| == MaxInt(0, MinInt(locF, |r.cap| - CapShift(offset)) - TailRows)
    ensures forall k :: 0 <= k < |out| ==>
      out[k] == Sample(r.tc[k + CapShift(offset)] - CapShift(offset) as real * (1.0 / Rate),
                       r.cap[k + CapShift(offset)])
    ensures OnGrid(r.tc) ==> OnGrid(Times(out))
  {
    var sh := Shifted(r.tc, r.cap, CapShift(offset), locF);
    assert OnGrid(r.tc) ==> OnGrid(Times(DropTail(sh, TailRows))) by {
      if OnGrid(r.tc) {
        DropTailOnGrid(sh, TailRows);
      }
    }
    DropTail(sh, TailRows)
  }

  /** test_fut: the force rows shifted by ForceShift(offset), in kPa, cut at
      loc_f, with the last 500 rows removed. */
  function ForceOutput(r: Resampled, locF: nat, offset: int): (out: seq<Sample<real>>)
    requires r.Shaped()
    ensures |out| == MaxInt(0, MinInt(locF, |r.force| - ForceShift(offset)) - TailRows)
    ensures forall k :: 0 <= k < |out| ==>
      out[k].time == r.tf[k + ForceShift(offset)] - ForceShift(offset) as real * (1.0 / Rate) &&
      out[k].value * SurfaceArea * 1000.0 == r.force[k + ForceShift(offset)]
    ensures OnGrid(r.tf) ==> OnGrid(Times(out))
  {
    var sh := Shifted(r.tf, Pressure(r.force), ForceShift(offset), locF);
    assert OnGrid(r.tf) ==> OnGrid(Times(DropTail(sh, TailRows))) by {
      if OnGrid(r.tf) {
        DropTailOnGrid(sh, TailRows);
      }
    }
    DropTail(sh, TailRows)
  }

  /** c[i, :]: the maxima of the shifted capacitance `caps`, taken before
      any cut, from the rows that survive the shift; with no shift these
      are the maxima of the whole run. */
  function ShiftedMaxima(r: Resampled, offset: int): (c: seq<real>)
    requires r.Shaped() && CapShift(offset) < |r.cap|
    ensures |c| == Channels
    ensures forall k, j :: CapShift(offset) <= k < |r.cap| && 0 <= j < Channels ==> r.cap[k][j] <= c[j]
    ensures forall j: nat :: j < Channels ==> AttainedFrom(r.cap, CapShift(offset), c, j)
    ensures forall j :: 0 <= j < Channels ==> c[j] <= Max(Column(r.cap, j))
    ensures CapShift(offset) == 0 ==> c == ColumnMax(r.cap)
  {
    var caps := Drop(r.cap, CapShift(offset));
    assert CapShift(offset) == 0 ==> caps == r.cap;
    var c := ColumnMax(caps);
    forall j: nat | j < Channels
      ensures AttainedFrom(r.cap, CapShift(offset), c, j) && c[j] <= Max(Column(r.cap, j))
    {
      MaximumAttained(r.cap, caps, CapShift(offset), c, j);
    }
    c
  }

  /** Channel j's value c[j] occurs in some row at or after `shift`. */
  predicate AttainedFrom(m: seq<seq<real>>, shift: nat, c: seq<real>, j: nat)
    requires Rectangular(m, Channels) && j < Channels && j < |c|
  {
    exists k :: shift <= k < |m| && m[k][j] == c[j]
  }

  /** Each maximum of the shifted rows is a value of some surviving row. */
  lemma MaximumAttained(m: seq<seq<real>>, caps: seq<seq<real>>, shift: nat, c: seq<real>, j: nat)
    requires Rectangular(m, Channels) && shift < |m| && caps == Drop(m, shift)
    requires c == ColumnMax(caps) && j < Channels
    ensures AttainedFrom(m, shift, c, j)
    ensures c[j] <= Max(Column(m, j))
  {
    assert c[j] in Column(caps, j);
    var k :| 0 <= k < |caps| && Column(caps, j)[k] == c[j];
    var w := k + shift;
    assert shift <= w < |m| && m[w][j] == c[j];
    assert Column(m, j)[w] == c[j];
  }

  /** One iteration of synch's loop, for run `run`. */
  function SyncRun(run: nat, r: Resampled): (s: Result<SyncedRun>)
    requires r.Shaped()
    ensures |r.cap| == 0 ==> s == Failure(EmptyCapacitance(run))
    ensures |r.cap| > 0 && |r.force| == 0 ==> s == Failure(EmptyForce(run))
    ensures s.Failure? ==> s.error in {EmptyCapacitance(run), EmptyForce(run), EmptyShiftedCapacitance(run)}
    ensures |r.cap| > 0 && |r.force| > 0 && CapShift(Offset(r, ReferenceChannel(r.cap), ArgMax(r.force))) < |r.cap| ==>
      s.Success?
    ensures s.Success? ==> |r.cap| > 0 && |r.force| > 0
    ensures s.Success? ==> s.value.reference < Channels && s.value.forcePeak < |r.force|
    ensures s.Success? ==> CapShift(s.value.offset) < |r.cap|
    ensures s.Success? ==> s.value.shorted == ShortedOf(r.cap) && s.value.reference == ReferenceChannel(r.cap)
    ensures s.Success? ==> s.value.forcePeak == ArgMax(r.force)
    ensures s.Success? ==> s.value.offset == Offset(r, s.value.reference, s.value.forcePeak)
    ensures s.Success? ==> s.value.cap == CapOutput(r, s.value.forcePeak, s.value.offset)
    ensures s.Success? ==> s.value.force == ForceOutput(r, s.value.forcePeak, s.value.offset)
    ensures s.Success? ==> s.value.maxCap == ShiftedMaxima(r, s.value.offset)
  {
    if |r.cap| == 0 then Failure(EmptyCapacitance(run))
    else if |r.force| == 0 then Failure(EmptyForce(run))
    else
      var chan := ReferenceChannel(r.cap);
      var locF := ArgMax(r.force);
      var offset := Offset(r, chan, locF);
      if CapShift(offset) >= |r.cap| then Failure(EmptyShiftedCapacitance(run))
      else
        Success(SyncedRun(
          CapOutput(r, locF, offset), ForceOutput(r, locF, offset), ShiftedMaxima(r, offset),
          ShortedOf(r.cap), chan, locF, offset))
  }

  /** With no capacitance shift the recorded maxima are the channel
      maxima of the whole run, so a channel is shorted iff its recorded
      maximum is above 10. */
  lemma UnshiftedMaxima(r: Resampled, offset: int)
    requires r.Shaped() && |r.cap| > 0 && CapShift(offset) == 0
    ensures forall j: nat :: j in ShortedOf(r.cap) <==> j < Channels && ShiftedMaxima(r, offset)[j] > ShortThreshold
  {
  }

  /** If some channel that is not shorted rises above 0, the reference
      channel is not a shorted one. */
  lemma ReferenceNotShorted(m: seq<seq<real>>, j: nat)
    requires |m| > 0 && Rectangular(m, Channels) && j < Channels
    requires j !in ShortedOf(m) && Max(Column(m, j)) > 0.0
    ensures ReferenceChannel(m) !in ShortedOf(m)
  {
    assert MaskedMax(m, j) > 0.0;
  }

  /** On the 200 Hz grid the offset is exactly the distance, in rows,
      from the force peak to the reference channel's peak. */
  lemma OnGridOffset(r: Resampled, chan: nat, locF: nat)
    requires r.Shaped() && |r.cap| > 0 && chan < Channels && locF < |r.tf|
    requires OnGrid(r.tc) && OnGrid(r.tf)
    ensures Offset(r, chan, locF) == ArgMax(Column(r.cap, chan)) - locF
  {
    var locC := ArgMax(Column(r.cap, chan));
    var x := (r.tc[locC] - r.tf[locF]) * Rate;
    assert r.tc[locC] == locC as real * Step && r.tf[locF] == locF as real * Step;
    assert x == (locC - locF) as real;
  }

  /** On the 200 Hz grid the shift lines the peaks up: after it the
      reference channel's peak and the force peak sit on the same row, and
      when the capacitance is the series shifted both outputs keep the same
      number of rows. */
  lemma AlignedOnGrid(r: Resampled, chan: nat, locF: nat)
    requires r.Shaped() && |r.cap| > 0 && chan < Channels && locF < |r.force|
    requires OnGrid(r.tc) && OnGrid(r.tf)
    ensures var offset := Offset(r, chan, locF);
      ArgMax(Column(r.cap, chan)) - CapShift(offset) == locF - ForceShift(offset) >= 0
    ensures var offset := Offset(r, chan, locF);
      offset > 0 ==> |CapOutput(r, locF, offset)| == |ForceOutput(r, locF, offset)| == MaxInt(0, locF - TailRows)
  {
    OnGridOffset(r, chan, locF);
  }

  /** synch: every run in order, stopping at the first that fails. */
  function Synch(runs: seq<Resampled>): (s: Result<seq<SyncedRun>>)
    requires forall i :: 0 <= i < |runs| ==> runs[i].Shaped()
    ensures s.Success? <==> forall i :: 0 <= i < |runs| ==> SyncRun(i, runs[i]).Success?
    ensures s.Success? ==> |s.value| == |runs|
    ensures s.Success? ==> forall i :: 0 <= i < |runs| ==> SyncRun(i, runs[i]) == Success(s.value[i])
  {
    var rs := seq(|runs|, i requires 0 <= i < |runs| => SyncRun(i, runs[i]));
    assert forall i :: 0 <= i < |runs| ==> rs[i] == SyncRun(i, runs[i]);
    Collect(rs)
  }
}
