/** numpy's `interp` (piecewise-linear interpolation, clamped to the end
    values outside the sample range) and `arange(0, last + 0.005, 0.005)`,
    the 200 Hz time grid the resampler builds, in exact arithmetic. */
module Interpolation {
  import opened Base
  import opened Series

  /** Sample times rise strictly: what np.interp expects of `xp`. */
  predicate StrictlyIncreasing(xs: seq<real>) {
    forall i, j :: 0 <= i < j < |xs| ==> xs[i] < xs[j]
  }

  /** The straight line through (x0, y0) and (x1, y1), evaluated at x, in
      numpy's form `slope * (x - x0) + y0`. */
  function Lerp(x0: real, y0: real, x1: real, y1: real, x: real): real
    requires x0 < x1
  {
    (y1 - y0) / (x1 - x0) * (x - x0) + y0
  }

  /** Between its two knots a line stays between their values. */
  lemma LerpBetween(x0: real, y0: real, x1: real, y1: real, x: real)
    requires x0 <= x <= x1 && x0 < x1
    ensures y0 <= y1 ==> y0 <= Lerp(x0, y0, x1, y1, x) <= y1
    ensures y1 <= y0 ==> y1 <= Lerp(x0, y0, x1, y1, x) <= y0
  {
    var t := (x - x0) / (x1 - x0);
    LerpAsFraction(x0, y0, x1, y1, x);
    if y0 <= y1 {
      ScaleWithinUnit(y1 - y0, t);
    } else {
      var d := (y0 - y1) * t;
      ScaleWithinUnit(y0 - y1, t);
      assert (y1 - y0) * t == -d;
      assert Lerp(x0, y0, x1, y1, x) == y0 - d;
    }
  }

  /** A line is its first value plus the rise scaled by how far x lies
      along the segment, a fraction in [0, 1]. */
  lemma LerpAsFraction(x0: real, y0: real, x1: real, y1: real, x: real)
    requires x0 <= x <= x1 && x0 < x1
    ensures 0.0 <= (x - x0) / (x1 - x0) <= 1.0
    ensures Lerp(x0, y0, x1, y1, x) == y0 + (y1 - y0) * ((x - x0) / (x1 - x0))
  {
    var w := x1 - x0;
    assert (y1 - y0) / w * (x - x0) == (y1 - y0) * ((x - x0) / w);
  }

  /** Scaling a non-negative amount by a fraction in [0, 1] keeps it
      between 0 and the amount. */
  lemma ScaleWithinUnit(a: real, t: real)
    requires 0.0 <= a && 0.0 <= t <= 1.0
    ensures 0.0 <= a * t <= a
  {
    assert a * (1.0 - t) >= 0.0;
  }

  /** np.interp(x, xp, fp) for one query point x. */
  function Interp(xp: seq<real>, fp: seq<real>, x: real): (y: real)
    requires |xp| == |fp| > 0
    requires StrictlyIncreasing(xp)
    ensures x <= xp[0] ==> y == fp[0]
    ensures xp[|xp| - 1] <= x ==> y == fp[|fp| - 1]
    ensures Min(fp) <= y <= Max(fp)
    decreases |xp|
  {
    if x <= xp[0] || |xp| == 1 then fp[0]
    else if x < xp[1] then
      LerpBetween(xp[0], fp[0], xp[1], fp[1], x);
      Lerp(xp[0], fp[0], xp[1], fp[1], x)
    else
      var y := Interp(xp[1..], fp[1..], x);
      assert Min(fp[1..]) in fp && Max(fp[1..]) in fp;
      y
  }

  /** np.interp over a vector of query points. */
  function InterpAll(xp: seq<real>, fp: seq<real>, grid: seq<real>): (ys: seq<real>)
    requires |xp| == |fp| > 0
    requires StrictlyIncreasing(xp)
    ensures |ys| == |grid|
    ensures forall k :: 0 <= k < |ys| ==> Min(fp) <= ys[k] <= Max(fp)
  {
    seq(|grid|, k requires 0 <= k < |grid| => Interp(xp, fp, grid[k]))
  }

  /** The interpolant passes through every sample. */
  lemma {:induction false} InterpAtSample(xp: seq<real>, fp: seq<real>, i: nat)
    requires |xp| == |fp| > 0
    requires StrictlyIncreasing(xp)
    requires i < |xp|
    ensures Interp(xp, fp, xp[i]) == fp[i]
  {
    if i > 0 {
      assert xp[0] < xp[1] <= xp[i];
      InterpAtSample(xp[1..], fp[1..], i - 1);
    }
  }

  /** Reference reading of np.interp: a query inside the segment
      [xp[i], xp[i+1]) is the line through that segment's two samples. */
  lemma {:induction false} InterpOnSegment(xp: seq<real>, fp: seq<real>, i: nat, x: real)
    requires |xp| == |fp| > 0
    requires StrictlyIncreasing(xp)
    requires i + 1 < |xp| && xp[i] <= x < xp[i + 1]
    ensures Interp(xp, fp, x) == Lerp(xp[i], fp[i], xp[i + 1], fp[i + 1], x)
  {
    if i > 0 {
      assert xp[0] < xp[1] <= xp[i];
      InterpOnSegment(xp[1..], fp[1..], i - 1, x);
      assert xp[1..][i - 1] == xp[i] && fp[1..][i - 1] == fp[i];
      assert xp[1..][i] == xp[i + 1] && fp[1..][i] == fp[i + 1];
    } else if x == xp[0] {
      assert Lerp(xp[0], fp[0], xp[1], fp[1], x) == fp[0];
    }
  }

  /** Number of points of `np.arange(0, last + Step, Step)`: every k with
      k * Step < last + Step, i.e. the smallest count reaching past
      `last + Step`. */
  function GridLength(last: real): (n: nat)
    ensures n > 0 ==> (n - 1) as real * Step < last + Step
    ensures last + Step <= n as real * Step
    ensures n > 0 <==> -Step < last
  {
    var x := last * Rate + 1.0;
    if x <= 0.0 then 0
    else
      var f := x.Floor;
      if f as real == x then f else f + 1
  }

  /** Times on the 200 Hz grid: the k-th is k * Step, so the first is 0. */
  predicate OnGrid(g: seq<real>) {
    forall k :: 0 <= k < |g| ==> g[k] == k as real * Step
  }

  /** The grid `np.arange(0, last + Step, Step)`: starts at 0, rises by
      Step, reaches `last` and overshoots it by less than one step. */
  function Grid(last: real): (g: seq<real>)
    ensures OnGrid(g)
    ensures |g| == GridLength(last)
    ensures |g| > 0 ==> last <= g[|g| - 1] < last + Step
    ensures |g| > 0 <==> -Step < last
  {
    seq(GridLength(last), k requires 0 <= k => k as real * Step)
  }

  /** Resampling a series already on the grid, out to its own last time,
      reproduces it exactly. */
  lemma ResampleOnGridIsIdentity(xp: seq<real>, fp: seq<real>)
    requires |xp| == |fp| > 0
    requires OnGrid(xp)
    ensures StrictlyIncreasing(xp)
    ensures InterpAll(xp, fp, Grid(xp[|xp| - 1])) == fp
  {
    var g := Grid(xp[|xp| - 1]);
    assert |g| == |xp|;
    forall k | 0 <= k < |xp|
      ensures Interp(xp, fp, g[k]) == fp[k]
    {
      InterpAtSample(xp, fp, k);
    }
  }
}
