# Eco Blox capacitance/force analysis in Dafny

This project models the core of `eb_analysis.py`, the script that turns the
recordings of an Eco Blox capacitive pressure sensor test into synchronised
capacitance and pressure series. The script reads one capacitance table
(CSV) and one force table (Futek load cell, Excel) per run. The model covers
its three stages:

1. **Channel remapping** (`ch_order`, `correct_ch_order`). The sensor type
   picks an order for the 8 physical channels. Type 1 keeps board order.
   Type 3 reads the second group of four backwards. Every capacitance table
   is then cut down to 5 metadata columns, the 8 channel columns in that
   order (shifted by the board version `v = 5`) and 3 trailing columns.
2. **Resampling** (`interp_cap`).
   - The force timestamps become elapsed seconds: cumulative clock
     differences, or relative differences.
   - Capacitance rows without a timestamp are dropped.
   - Each channel is baselined to its first valid reading.
   - Both series are interpolated with `np.interp` onto 200 Hz grids
     `arange(0, last + 0.005, 0.005)`.
3. **Synchronisation** (`synch`). The plotting loop is not modelled.
   - Channels whose maximum exceeds 10 are flagged as shorted.
   - The reference channel is the first channel holding the largest
     maximum, once the shorted channels are zeroed.
   - The offset in samples between the reference channel's peak and the
     force peak is truncated toward zero.
   - Capacitance (offset > 0) or force (offset <= 0) is shifted back, and
     both series are cut at the force-peak index `loc_f`.
   - Force is converted to kPa (`/ SA / 1000`, `SA = 325e-6`).
   - The per-channel maxima of the shifted capacitance are recorded, and a
     500-row tail is dropped.

The model is functional and uses exact real arithmetic. The modules are:

- `Base`: options, results with the script's failure points, constants,
  `int()` truncation, and in-order processing of runs.
- `Series`: numpy's `argmax`/`max`, slicing, `diff`/`cumsum` and boolean
  masks.
- `Interpolation`: `np.interp` and `np.arange`.
- `ChannelOrder`, `Resample` and `Synchronise`: the three stages.
- `SyncFinding`: the length discrepancy described under Findings.
- `Pipeline`: the script end to end.

Every exception the script raises in these stages, outside the plotting
loop, becomes a `Failure` value. Examples are an unbound `ch_order`, a
missing force file, `[-1]` on an empty array, and `np.max`/`np.argmax` over
zero rows. The plotting loop is not modelled, so a run that the loop
cannot plot still succeeds in `Synchronise.Synch` (see "Left out").

## Model

| member | source | states |
|---|---|---|
| Base.Trunc | eb_analysis.py:166 | Python `int()` on a float truncates toward zero: the result is the integer part with the sign of the argument, within 1 of it |
| Series.ArgMax | eb_analysis.py:158-162 | `np.argmax` returns an index whose value is at least every other value, and every earlier value is strictly smaller (the first maximum) |
| Series.ColumnMax | eb_analysis.py:150 | `np.max(axis=0)` gives 8 values, each at least every entry of its column and equal to one of them |
| Series.Drop | eb_analysis.py:170-171 | `s[n:]` has max(0, len - n) elements, element k being s[k + n] |
| Series.DropTail | eb_analysis.py:199-200 | `s[:-n]` has max(0, len - n) elements and keeps the prefix |
| Series.SumOfDiffsTelescopes | eb_analysis.py:91 | summing the first k differences of a series gives t[k] - t[0] |
| Series.KeepAt | eb_analysis.py:98-100 | boolean masking keeps exactly the positions whose mask bit is true, in increasing order, with the element at each kept position |
| ChannelOrder.ChOrder | eb_analysis.py:18-21 | only sensor types 1 and 3 define an order; it is a permutation of 1..8, the identity for type 1 and 1,2,3,4,8,7,6,5 for type 3 |
| ChannelOrder.Columns | eb_analysis.py:64-68 | the column list is 0..4, then order[c] + v - 1 for each channel, then 13..15 |
| ChannelOrder.ColumnsArePermutation | eb_analysis.py:64-68 | with v = 5 and a channel permutation, the 16 selected columns are a permutation of the 16 loaded columns |
| ChannelOrder.SelectRoundTrip | eb_analysis.py:71 | selecting a permutation of columns and then its inverse gives the original row back |
| ChannelOrder.RemapRow | eb_analysis.py:64-71 | a remapped row keeps metadata and trailing columns, puts raw column order[c] + 4 at position 5 + c, and loses nothing (inverse selection restores it) |
| ChannelOrder.CorrectChOrder | eb_analysis.py:58-73 | every table keeps its run position and row count, and every row is remapped the same way |
| Interpolation.Interp | eb_analysis.py:124-131 | `np.interp` returns fp[0] at or left of xp[0], the last fp right of the last xp, and always a value between min and max of fp |
| Interpolation.InterpAtSample | eb_analysis.py:124-131 | the interpolant passes through every sample point |
| Interpolation.InterpOnSegment | eb_analysis.py:124-131 | inside a segment [xp[i], xp[i+1]) the interpolant is the straight line through that segment's two samples |
| Interpolation.LerpBetween | eb_analysis.py:124-131 | between its knots a line stays between the two knot values |
| Interpolation.GridLength | eb_analysis.py:103-104 | `arange(0, last + 0.005, 0.005)` has the least number of points n with n * 0.005 >= last + 0.005, and is empty iff last <= -0.005 |
| Interpolation.Grid | eb_analysis.py:103-104 | the grid starts at 0, rises by 0.005, and its last point is at least `last` and less than one step past it |
| Interpolation.ResampleOnGridIsIdentity | eb_analysis.py:103-131 | resampling a series that already lies on the 200 Hz grid, out to its own last time, reproduces it |
| Resample.ForceElapsed | eb_analysis.py:85-93 | elapsed time has one entry per clock stamp (at least one for relative stamps) and starts at 0 |
| Resample.RelativeElapsedTelescopes | eb_analysis.py:91 | for relative stamps, elapsed time k is t[k] - t[0] |
| Resample.ClockElapsedTelescopes | eb_analysis.py:88-89 | for clock stamps without NaT, elapsed time k is stamp k minus stamp 0 |
| Resample.ClockElapsedHoldsAtGap | eb_analysis.py:88-89 | a NaT stamp contributes a zero difference, so elapsed time stands still at that row |
| Resample.ClockGapRepeatsElapsed | eb_analysis.py:88-89 | a NaT anywhere in a clock column of two or more stamps leaves elapsed times that do not rise strictly |
| Resample.ValidRows | eb_analysis.py:97-100 | the kept rows are exactly those with a timestamp, in increasing order |
| Resample.CleanTimes | eb_analysis.py:97-100 | the clean times are the present timestamps of the kept rows, in order |
| Resample.CleanChannel | eb_analysis.py:116-117 | a clean channel uses the same mask, so entry i comes from the same row as clean time i |
| Resample.Baselined | eb_analysis.py:119-121 | baselining makes the first value 0 and keeps every difference between values |
| Resample.CleanRowsAligned | eb_analysis.py:97-117 | clean times and every clean channel have the same length, and entry i of each comes from the same original row |
| Resample.ResampleRun | eb_analysis.py:84-134 | a run fails on no valid capacitance time, no force time, a missing reading or force/time length mismatch, and otherwise succeeds with both grids of the right length and rows of 8 channels |
| Resample.ResampledWithinSamples | eb_analysis.py:119-128 | every resampled capacitance value lies between the min and max of that channel's baselined samples |
| Resample.ResampledAtSampleTime | eb_analysis.py:119-128 | at a grid point equal to a clean timestamp, the resampled value is that sample minus the channel's first reading |
| Resample.FirstResampledRowIsZero | eb_analysis.py:103-128 | when the first valid timestamp is not negative, the first resampled capacitance row is all zeros |
| Resample.ResampledForceAtSampleTime | eb_analysis.py:130-131 | at a grid point equal to an elapsed time, the resampled force is the recorded force |
| Resample.InterpCap | eb_analysis.py:82-134 | on success there is one resampled run per capacitance table, each being that table's run result on the grid; fewer force files than tables fails; a failure carries the error of the first run that fails, every earlier run having succeeded |
| Resample.InterpCapSucceeds | eb_analysis.py:82-134 | with a force table for every capacitance table and every run resampling without error, interp_cap succeeds |
| Synchronise.Shorted | eb_analysis.py:150-151 | a channel is shorted iff its maximum is strictly above 10 |
| Synchronise.ZeroColumns | eb_analysis.py:154 | zeroing sets exactly the listed channels to 0 and leaves every other entry as it was |
| Synchronise.ZeroedColumnMax | eb_analysis.py:150-157 | on the zeroed copy a shorted channel's maximum is 0 and every other maximum is unchanged |
| Synchronise.ReferenceChannel | eb_analysis.py:150-158 | the reference channel holds the largest masked maximum (shorted channels count 0), and no earlier channel holds it |
| Synchronise.ReferenceNotShorted | eb_analysis.py:150-158 | if an unshorted channel rises above 0, the reference channel is not shorted |
| Synchronise.Offset | eb_analysis.py:166 | the offset is the peak-time difference in samples, truncated toward zero |
| Synchronise.OnGridOffset | eb_analysis.py:166 | on the 200 Hz grid the offset is exactly the row of the reference channel's peak minus loc_f |
| Synchronise.Normalise | eb_analysis.py:182 | force / SA / 1000 times SA times 1000 gives the force back |
| Synchronise.Shifted | eb_analysis.py:170-193 | the shifted series drops `shift` rows, keeps at most `cut`, moves each time back by shift / 200, and keeps on-grid times on the grid starting at 0 |
| Synchronise.CapOutput | eb_analysis.py:168-199 | test_cap has max(0, min(loc_f, rows after shift) - 500) rows; row k is capacitance row k + shift with its time moved back by shift / 200 |
| Synchronise.ForceOutput | eb_analysis.py:178-200 | test_fut has max(0, min(loc_f, rows after shift) - 500) rows; row k is force row k + shift, in kPa, with its time moved back by shift / 200 |
| Synchronise.ShiftedMaxima | eb_analysis.py:195 | each recorded maximum bounds and is attained by the surviving rows of its channel and never exceeds the channel's overall maximum; without a shift it is the overall maximum |
| Synchronise.UnshiftedMaxima | eb_analysis.py:184-195 | when the capacitance is not shifted, a channel is shorted iff its recorded maximum is above 10 |
| Synchronise.AlignedOnGrid | eb_analysis.py:166-193 | on the grid, after the shift the reference channel's peak and the force peak fall on the same row; when the capacitance is shifted both outputs have max(0, loc_f - 500) rows |
| Synchronise.SyncRun | eb_analysis.py:147-203 | a run fails on empty capacitance, empty force or a shift past the end of the capacitance, and succeeds otherwise; on success its fields are the shorted set, reference channel, loc_f, offset, outputs and maxima described by the rows above |
| Synchronise.Synch | eb_analysis.py:147-148 | synch succeeds iff every run does, giving one result per run in order |
| SyncFinding.UnequalLengthsAsWritten | eb_analysis.py:184-193 | as written, a 2000-row run with reference peak at row 1000 and force peak at row 1800 gives 1300 capacitance rows but 700 force rows |
| SyncFinding.LatePeakUnequal | eb_analysis.py:184-193 | such a run exists: the concrete late-peak run synchronises into series of unequal length |
| SyncFinding.SyncRunAligned | eb_analysis.py:173-193 | the corrected loop body fails exactly when the original does and keeps the same peak, offset, maxima and shorted set; its two outputs always have equal length; it equals the original when both shifted series have at least loc_f rows |
| SyncFinding.CommonCutLengths | eb_analysis.py:173-176 | cut at the common length, both outputs have the same number of rows |
| SyncFinding.AlignedAgreesOnGridCapShift | eb_analysis.py:168-182 | on the grid with the capacitance shifted, the corrected loop body gives the original result |
| SyncFinding.SynchAligned | eb_analysis.py:147-203 | the corrected synch succeeds iff every run does, and every run's two series have equal length |
| Pipeline.RemapKeepsTimes | eb_analysis.py:64-71 | remapping keeps the timestamp column, so cleaning keeps the same rows and times |
| Pipeline.RemapKeepsReadings | eb_analysis.py:64-71 | every channel reading of a remapped table comes from a raw channel column, so complete raw readings stay complete |
| Pipeline.RemapLosesNoReading | eb_analysis.py:64-71 | every raw channel column lands in some remapped channel column, so complete remapped readings mean complete raw readings |
| Pipeline.RemapSelectsChannel | eb_analysis.py:113-117 | channel j of a remapped table is raw channel order[j]: its clean readings are those of column order[j] + 4 |
| Pipeline.Analyse | eb_analysis.py:18-203 | an unsupported sensor type fails, as do fewer force files than capacitance tables; on success there is one synchronised run per table, each with two series of equal length |
| Pipeline.AnalyseRun | eb_analysis.py:18-203 | on success, run i is the corrected synchronisation of run i resampled from remapped table i and force table i |
| Pipeline.AnalyseSucceeds | eb_analysis.py:18-203 | with a supported sensor type, a force table per capacitance table and every remapped run resampling and synchronising, the script succeeds |

## Left out

- File discovery and loading (`glob`, `read_csv(usecols=range(16))`, `read_excel`, lines 23-44): the tables are parameters. Each capacitance table is required to have 16 columns.
- The plotting loop (lines 205-242) and all figure output are left out. This includes the figure at line 226, which plots the two series against each other and raises when they differ in length (see the `Synchronise.Synch` line below).
- Mutation of the module-level lists `run`, `t_c`, `t_f`, `test` and `c`, and the `deepcopy` in `temp_run`, are not modelled: every stage returns its values instead. The zeroing of shorted channels is modelled on a fresh copy (`ZeroColumns`).
- `M = run[i][1][loc_f]` (line 163) is computed and never used, so it is not modelled.
- Floating point is replaced by exact reals. `1/200` and 0.005 are exact, `np.arange` accumulates no rounding, and `total_seconds()` is a real number of seconds.
- The pandas dtype test `is_datetime64_any_dtype` (line 87) becomes a tag on the stamp column (`Clock` or `Relative`). A NaT stamp is `None`.
- NaN propagation is not modelled. A NaN timestamp is handled as the script handles it, by masking. A NaN in the force column or in relative force times is not represented.
- Resample.ResampleRun: a NaN channel reading on a row that has a timestamp stops the run with `MissingReading` instead of flowing through `np.interp` as NaN.
- Resample.ResampleRun: requires strictly increasing clean timestamps and elapsed force times (`ResampleReady`). `np.interp` documents this demand but does not check it, and its result is unspecified otherwise.
- Resample.ResampleRun: a NaT in a clock stamp column of two or more stamps makes two successive elapsed times equal (`ClockGapRepeatsElapsed`), so such a run is outside `ResampleReady`. The NaT handling and the `fillna` of line 89 are modelled in `ForceElapsed`, but only a single-stamp clock column with a NaT can reach `ResampleRun`, `InterpCap` or `Analyse`. Interpolation on repeated sample points is not modelled.
- Synchronise.Synch: succeeds on runs whose two synchronised series differ in length. In the script, the plotting loop then raises matplotlib's `ValueError` at line 226 (`x` and `y` must have the same first dimension), inside `synch()`, for the first such run. The plotting loop is not modelled. `SyncFinding.SyncRunAligned` is the loop body whose series always have equal length.
- Pipeline.Analyse: uses the corrected loop body `SyncRunAligned` (see Findings). The loop as written is `Synchronise.Synch`.
- Pipeline.Analyse: an unsupported sensor type is reported before any table is touched. In the script the `NameError` surfaces at line 66, after the files have been loaded.
- The GUI, hardware-control and calibration modules of the repository are not part of this model.

## Behaviour notes

These points follow the code where a plain description of the script might
suggest otherwise:

- A run with a single valid capacitance timestamp is not an error. `np.interp` accepts one sample point and returns it everywhere. Only a run with no valid timestamp fails.
- With no capacitance files the script simply produces no runs.
- A relative force-time column that is empty gives an elapsed vector `[0]`. Interpolation then fails on the length mismatch with the empty force column.
- When every channel is shorted, the zeroed copy is all zeros and channel 0 becomes the reference.
- A force shift past the end of the force series leaves an empty force output, and `synch`'s own statements raise no error. When `test_cap` keeps any row, the plotting loop then raises at line 226, which the model does not include (see "Left out"). A capacitance shift that leaves no capacitance rows fails at `np.max(caps)`.

## Findings

| source | as written | input that shows it | evidently intended | confidence | as-written member | corrected member |
|---|---|---|---|---|---|---|
| eb_analysis.py:184-193 | when offset <= 0 the force is shifted by abs(offset) rows, but both series are still cut at `loc_f`. The shifted force can have fewer than `loc_f` rows while the capacitance does not, so `test_cap` and `test_fut` differ in length, and the script then aborts in the plotting loop at line 226, whose `ax3.plot` needs equal lengths | capacitance and force both 2000 rows on the 200 Hz grid; channel 0 peaks at row 1000 and the other channels stay at 0; force peaks at row 1800. Offset is -800, giving 1300 capacitance rows but only 700 force rows | both series cut to the same length, as the comment at lines 173-175 says; the hysteresis plot at line 226 needs equal lengths | medium, not executed | SyncFinding.UnequalLengthsAsWritten | SyncFinding.SyncRunAligned |
