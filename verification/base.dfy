/** Shared vocabulary of the analysis pipeline: optional values, results
    carrying the pipeline's failure kinds, and the fixed parameters of the
    script (channel count, board version, surface area, sampling rate,
    shorted-channel threshold and trailing margin). */
module Base {

  /** A value that may be missing; `None` stands for a NaN/NaT cell. */
  datatype Option<+T> = None | Some(value: T)

  /** The ways the pipeline stops. Each comment names the exception the
      script raises at that point, except for `MissingReading`, where the
      script raises nothing and the model stops instead. */
  datatype Error =
    | UnsupportedSensorType(sensorType: int) // ch_order never bound: NameError
    | MissingForceFile(run: nat)             // fut[i] past the end: IndexError
    | NoValidCapTime(run: nat)               // cap_time_clean[-1] on nothing: IndexError
    | NoForceTime(run: nat)                  // elapsed[-1] on nothing: IndexError
    | ForceLengthMismatch(run: nat)          // np.interp with len(xp) != len(fp): ValueError
    | MissingReading(run: nat)               // NaN reading at a valid timestamp (see README)
    | EmptyCapacitance(run: nat)             // np.max over zero rows: ValueError
    | EmptyForce(run: nat)                   // np.argmax over zero rows: ValueError
    | EmptyShiftedCapacitance(run: nat)      // np.max(caps) after shifting everything away

  /** The outcome of a stage: a value, or the error that aborted it. */
  datatype Result<+T> = Success(value: T) | Failure(error: Error) {
    predicate IsFailure() {
      Failure?
    }

    function PropagateFailure<U>(): Result<U>
      requires Failure?
    {
      Failure(error)
    }

    function Extract(): T
      requires Success?
    {
      value
    }
  }

  /** Runs processed one after another: all their values when every run
      succeeds, otherwise the error of the first run that fails (the later
      runs are never reached). */
  function Collect<T>(rs: seq<Result<T>>): (r: Result<seq<T>>)
    ensures r.Success? <==> forall i :: 0 <= i < |rs| ==> rs[i].Success?
    ensures r.Success? ==> |r.value| == |rs|
    ensures r.Success? ==> forall i :: 0 <= i < |rs| ==> rs[i] == Success(r.value[i])
    ensures r.Failure? ==> exists i :: 0 <= i < |rs| && rs[i] == Failure(r.error) && forall j :: 0 <= j < i ==> rs[j].Success?
  {
    if |rs| == 0 then Success([])
    else
      match rs[0]
      case Failure(e) => Failure(e)
      case Success(v) =>
        match Collect(rs[1..])
        case Failure(e) =>
          assert forall i :: 1 <= i < |rs| ==> rs[1..][i - 1] == rs[i];
          Failure(e)
        case Success(vs) => Success([v] + vs)
  }

  /** Number of capacitance channels on the sensor (`ch`). */
  const Channels: nat := 8

  /** PCB board version column offset (`v`; 5 for board v3). */
  const BoardVersion: nat := 5

  /** Columns kept from each capacitance file (`usecols=range(16)`). */
  const CapColumns: nat := 16

  /** Sensor surface area in square metres (`SA`, 325 mm^2). */
  const SurfaceArea: real := 0.000325

  /** Resampling rate in Hz and its step in seconds. */
  const Rate: real := 200.0
  const Step: real := 0.005

  /** A channel whose maximum exceeds this is treated as shorted. */
  const ShortThreshold: real := 10.0

  /** Rows dropped from the end of every synchronised series. */
  const TailRows: nat := 500

  /** Truncation toward zero, Python's `int()` on a float. */
  function Trunc(x: real): (n: int)
    ensures 0.0 <= x ==> 0 <= n && n as real <= x < n as real + 1.0
    ensures x < 0.0 ==> n <= 0 && n as real - 1.0 < x <= n as real
  {
    if x >= 0.0 then x.Floor else -((-x).Floor)
  }

  /** The larger of two integers. */
  function MaxInt(a: int, b: int): int {
    if a >= b then a else b
  }

  /** The smaller of two integers. */
  function MinInt(a: int, b: int): int {
    if a <= b then a else b
  }
}
