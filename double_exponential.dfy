/** The double exponential smoothing filter (smoothVectorDEInit, smoothVectorDE):
    a level (prevSmoothedVector) and a trend per joint, updated once per
    sample. Over the reals the recurrence is exact. */
module DoubleExponential {
  import opened Geometry

  /** The per-joint filter state: prevSmoothedVector[type] and trend[type]. */
  datatype DesState = DesState(prevSmoothed: Vec3, trend: Vec3)

  /** The state both dictionaries hold before any initialisation. */
  const Unset: DesState := DesState(Zero, Zero)

  /** Where the state expects the next sample: level plus trend. */
  function Forecast(st: DesState): Vec3 {
    Add(st.prevSmoothed, st.trend)
  }

  /** smoothVectorDEInit(X1, X0): the level starts at X0 and the trend is the
      step from X0 to X1, so the state forecasts X1. */
  function Initial(x1: Vec3, x0: Vec3): (st: DesState)
    ensures st.prevSmoothed == x0
    ensures Forecast(st) == x1
  {
    DesState(x0, Sub(x1, x0))
  }

  /** The value smoothVectorDE returns for sample xn:
      alpha * xn + (1 - alpha) * (prev + trend). */
  function Smoothed(alpha: real, st: DesState, xn: Vec3): (s: Vec3)
    ensures alpha == 1.0 ==> s == xn
    ensures alpha == 0.0 ==> s == Forecast(st)
    ensures xn == Forecast(st) ==> s == xn
  {
    Add(Scale(alpha, xn), Scale(1.0 - alpha, Add(st.prevSmoothed, st.trend)))
  }

  /** The state smoothVectorDE leaves: the new level is the smoothed value and
      the trend moves towards the last step by gamma. */
  function Advance(alpha: real, gamma: real, st: DesState, xn: Vec3): (st': DesState)
    ensures st'.prevSmoothed == Smoothed(alpha, st, xn)
    ensures gamma == 0.0 ==> st'.trend == st.trend
    ensures gamma == 1.0 ==> st'.trend == Sub(st'.prevSmoothed, st.prevSmoothed)
  {
    var s := Smoothed(alpha, st, xn);
    DesState(s, Add(Scale(gamma, Sub(s, st.prevSmoothed)), Scale(1.0 - gamma, st.trend)))
  }

  /** The outputs of smoothVectorDE for a run of samples, from state st. */
  function Outputs(alpha: real, gamma: real, st: DesState, xs: seq<Vec3>): (out: seq<Vec3>)
    ensures |out| == |xs|
    decreases |xs|
  {
    if xs == [] then []
    else [Smoothed(alpha, st, xs[0])] + Outputs(alpha, gamma, Advance(alpha, gamma, st, xs[0]), xs[1..])
  }

  /** The points a state forecasts if the trend never changes:
      prev + (i + 1) * trend for i = 0, 1, ... */
  predicate OnLine(st: DesState, xs: seq<Vec3>) {
    forall i :: 0 <= i < |xs| ==> xs[i] == Add(st.prevSmoothed, Scale((i + 1) as real, st.trend))
  }

  /** A sample exactly on the forecast is passed through and the trend kept. */
  lemma ForecastIsFixedPoint(alpha: real, gamma: real, st: DesState, xn: Vec3)
    requires xn == Forecast(st)
    ensures Advance(alpha, gamma, st, xn) == DesState(xn, st.trend)
  {
  }

  /** Whatever alpha and gamma, a straight-line motion that continues the
      state's forecast is reproduced exactly: the filter has no lag on it. */
  lemma {:induction false} TracksStraightLine(alpha: real, gamma: real, st: DesState, xs: seq<Vec3>)
    requires OnLine(st, xs)
    ensures Outputs(alpha, gamma, st, xs) == xs
    decreases |xs|
  {
    if xs != [] {
      assert xs[0] == Forecast(st) by {
        assert Scale(1.0, st.trend) == st.trend;
      }
      ForecastIsFixedPoint(alpha, gamma, st, xs[0]);
      OnLineRest(st, xs);
      TracksStraightLine(alpha, gamma, DesState(xs[0], st.trend), xs[1..]);
    }
  }

  /** Past its first point, a line continues from that point with the same
      trend. */
  lemma OnLineRest(st: DesState, xs: seq<Vec3>)
    requires OnLine(st, xs) && xs != []
    ensures OnLine(DesState(xs[0], st.trend), xs[1..])
  {
    var st' := DesState(xs[0], st.trend);
    forall i | 0 <= i < |xs[1..]|
      ensures xs[1..][i] == Add(st'.prevSmoothed, Scale((i + 1) as real, st'.trend))
    {
      assert xs[1..][i] == xs[i + 1];
      var t := st.trend;
      assert Scale(((i + 1) + 1) as real, t) == Add(t, Scale((i + 1) as real, t));
    }
  }

  /** smoothVectorDEInit sets the level to X0, not X1: on a straight line
      X0, X1, X2 the first smoothed value trails X2 by (1 - alpha) steps. */
  lemma InitialLagsOneStep(alpha: real, gamma: real, x0: Vec3, x1: Vec3, x2: Vec3)
    requires x2 == Add(x1, Sub(x1, x0))
    ensures Smoothed(alpha, Initial(x1, x0), x2) == Sub(x2, Scale(1.0 - alpha, Sub(x1, x0)))
  {
  }

  /** The filter state of a joint after its tracked samples hist, for window
      size k: smoothVectorDEInit runs on the second sample when the window
      is still filling then (k >= 2), and smoothVectorDE on every later one. */
  function StateAfter(alpha: real, gamma: real, hist: seq<Vec3>, k: nat): DesState
    decreases |hist|
  {
    if |hist| <= 1 then Unset
    else if |hist| == 2 && k >= 2 then Initial(hist[1], hist[0])
    else Advance(alpha, gamma, StateAfter(alpha, gamma, hist[..|hist| - 1], k), hist[|hist| - 1])
  }

  /** Whether smoothVectorDE has produced an output after n samples. */
  predicate Advanced(n: nat, k: nat) {
    n >= 3 || (n == 2 && k == 1)
  }

  /** With alpha = 1 the filter passes every sample through: once it has
      produced an output, the level is the newest sample. */
  lemma PassThroughLevel(gamma: real, hist: seq<Vec3>, k: nat)
    requires Advanced(|hist|, k)
    ensures StateAfter(1.0, gamma, hist, k).prevSmoothed == hist[|hist| - 1]
  {
  }
}
