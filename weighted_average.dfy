/** The windowed weighted-average filter (smoothVector, vectorWeight, getMaxT).
    A window t[0..K] holds samples oldest first; t[K] is the newest. Sample
    t[K-j] gets weight exp(-j * HConst * maxT), where maxT is the largest
    distance from the newest sample to any older one. */
module WeightedAverage {
  import opened Geometry

  /** |t[K] - t[K-l]|: how far the newest sample is from the one l steps older. */
  function Spread(magnitude: Vec3 -> real, s: seq<Vec3>, l: nat): real
    requires 1 <= l < |s|
  {
    magnitude(Sub(s[|s| - 1], s[|s| - 1 - l]))
  }

  /** The running maximum getMaxT holds after looking at lags 1..n. */
  function MaxSpreadUpTo(magnitude: Vec3 -> real, s: seq<Vec3>, n: nat): real
    requires 1 <= n < |s|
    decreases n
  {
    if n == 1 then Spread(magnitude, s, 1)
    else
      var max := MaxSpreadUpTo(magnitude, s, n - 1);
      if Spread(magnitude, s, n) > max then Spread(magnitude, s, n) else max
  }

  /** The value getMaxT returns for a whole window. */
  function MaxSpread(magnitude: Vec3 -> real, s: seq<Vec3>): real
    requires |s| >= 2
  {
    MaxSpreadUpTo(magnitude, s, |s| - 1)
  }

  /** The running maximum bounds every lag seen so far and is one of them. */
  lemma {:induction false} MaxSpreadUpToIsMaximum(magnitude: Vec3 -> real, s: seq<Vec3>, n: nat)
    requires 1 <= n < |s|
    ensures forall l :: 1 <= l <= n ==> Spread(magnitude, s, l) <= MaxSpreadUpTo(magnitude, s, n)
    ensures exists l :: 1 <= l <= n && MaxSpreadUpTo(magnitude, s, n) == Spread(magnitude, s, l)
  {
    if n > 1 {
      MaxSpreadUpToIsMaximum(magnitude, s, n - 1);
      var l :| 1 <= l <= n - 1 && MaxSpreadUpTo(magnitude, s, n - 1) == Spread(magnitude, s, l);
      if Spread(magnitude, s, n) > MaxSpreadUpTo(magnitude, s, n - 1) {
        assert 1 <= n <= n && MaxSpreadUpTo(magnitude, s, n) == Spread(magnitude, s, n);
      } else {
        assert 1 <= l <= n && MaxSpreadUpTo(magnitude, s, n) == Spread(magnitude, s, l);
      }
    } else {
      assert 1 <= 1 <= n && MaxSpreadUpTo(magnitude, s, n) == Spread(magnitude, s, 1);
    }
  }

  /** getMaxT: the largest |t[k] - t[k-l]| over l = 1..k. */
  method GetMaxT(magnitude: Vec3 -> real, t: seq<Vec3>, k: nat) returns (max: real)
    requires k >= 1 && |t| == k + 1
    ensures max == MaxSpread(magnitude, t)
    ensures forall l :: 1 <= l <= k ==> Spread(magnitude, t, l) <= max
    ensures exists l :: 1 <= l <= k && max == Spread(magnitude, t, l)
  {
    var subtr := Sub(t[k], t[k - 1]);
    max := magnitude(subtr);
    var l := 2;
    while l <= k
      invariant 2 <= l <= k + 1
      invariant max == MaxSpreadUpTo(magnitude, t, l - 1)
    {
      subtr := Sub(t[k], t[k - l]);
      if magnitude(subtr) > max {
        max := magnitude(subtr);
      }
      l := l + 1;
    }
    MaxSpreadUpToIsMaximum(magnitude, t, k);
  }

  /** vectorWeight: the weight of the sample j steps older than the newest. */
  function Weight(ops: FloatOps, j: nat, hConst: real, maxT: real): (w: real)
    requires Sound(ops)
    ensures w > 0.0
    ensures j == 0 ==> w == 1.0
  {
    ops.exp(-(j as real) * hConst * maxT)
  }

  /** With a positive HConst and a moving window, an older sample weighs
      strictly less than a newer one. */
  lemma WeightDecays(ops: FloatOps, j: nat, hConst: real, maxT: real)
    requires Sound(ops) && hConst > 0.0 && maxT > 0.0
    ensures Weight(ops, j + 1, hConst, maxT) < Weight(ops, j, hConst, maxT)
  {
    var hm := hConst * maxT;
    assert hm > 0.0;
    assert -((j + 1) as real) * hConst * maxT == -(j as real) * hm - hm;
    assert -(j as real) * hConst * maxT == -(j as real) * hm;
  }

  /** sum1 after the first n iterations of smoothVector's loop:
      the sum of w_j * t[K-j] for j < n. */
  function WeightedSum(ops: FloatOps, hConst: real, maxT: real, s: seq<Vec3>, n: nat): Vec3
    requires Sound(ops) && n <= |s|
  {
    if n == 0 then Zero
    else Add(WeightedSum(ops, hConst, maxT, s, n - 1), Scale(Weight(ops, n - 1, hConst, maxT), s[|s| - n]))
  }

  /** sum2 after the first n iterations: the sum of w_j for j < n. */
  function TotalWeight(ops: FloatOps, hConst: real, maxT: real, n: nat): (total: real)
    requires Sound(ops)
    ensures total >= 0.0
    ensures n > 0 ==> total >= 1.0
  {
    if n == 0 then 0.0 else TotalWeight(ops, hConst, maxT, n - 1) + Weight(ops, n - 1, hConst, maxT)
  }

  /** The weighted average of a window for a given maxT. */
  function Ewma(ops: FloatOps, hConst: real, maxT: real, s: seq<Vec3>): Vec3
    requires Sound(ops) && |s| >= 1
  {
    DivBy(WeightedSum(ops, hConst, maxT, s, |s|), TotalWeight(ops, hConst, maxT, |s|))
  }

  /** What smoothVector returns for a window: the weighted average with
      maxT taken from the window itself. */
  function WindowAverage(ops: FloatOps, hConst: real, w: seq<Vec3>): Vec3
    requires Sound(ops) && |w| >= 2
  {
    Ewma(ops, hConst, MaxSpread(ops.magnitude, w), w)
  }

  /** smoothVector: the weighted average of the window t[0..k]. */
  method SmoothVector(ops: FloatOps, hConst: real, t: seq<Vec3>, k: nat) returns (r: Vec3)
    requires Sound(ops) && k >= 1 && |t| == k + 1
    ensures r == WindowAverage(ops, hConst, t)
  {
    var sum1 := Zero;
    var sum2 := 0.0;
    var maxT := GetMaxT(ops.magnitude, t, k);
    var j := 0;
    while j <= k
      invariant 0 <= j <= k + 1
      invariant sum1 == WeightedSum(ops, hConst, maxT, t, j)
      invariant sum2 == TotalWeight(ops, hConst, maxT, j)
    {
      var wj := Weight(ops, j, hConst, maxT);
      sum1 := Add(sum1, Scale(wj, t[k - j]));
      sum2 := sum2 + wj;
      j := j + 1;
    }
    r := DivBy(sum1, sum2);
  }

  lemma {:induction false} WeightedSumOfConstant(ops: FloatOps, hConst: real, maxT: real, s: seq<Vec3>, c: Vec3, n: nat)
    requires Sound(ops) && n <= |s|
    requires forall i :: 0 <= i < |s| ==> s[i] == c
    ensures WeightedSum(ops, hConst, maxT, s, n) == Scale(TotalWeight(ops, hConst, maxT, n), c)
  {
    if n > 0 {
      WeightedSumOfConstant(ops, hConst, maxT, s, c, n - 1);
      var before := TotalWeight(ops, hConst, maxT, n - 1);
      var w := Weight(ops, n - 1, hConst, maxT);
      assert s[|s| - n] == c;
      ScaleDistributes(before, w, c);
    }
  }

  /** A window of identical samples averages to that sample, whatever HConst,
      the window size or maxT. */
  lemma ConstantWindow(ops: FloatOps, hConst: real, maxT: real, s: seq<Vec3>, c: Vec3)
    requires Sound(ops) && |s| >= 1
    requires forall i :: 0 <= i < |s| ==> s[i] == c
    ensures Ewma(ops, hConst, maxT, s) == c
  {
    WeightedSumOfConstant(ops, hConst, maxT, s, c, |s|);
    var w := TotalWeight(ops, hConst, maxT, |s|);
    ScaleThenDivide(w, c);
  }

  /** sum of the first n samples counted from the newest, with no weights. */
  function PlainSum(s: seq<Vec3>, n: nat): Vec3
    requires n <= |s|
  {
    if n == 0 then Zero else Add(PlainSum(s, n - 1), s[|s| - n])
  }

  lemma {:induction false} StillSums(ops: FloatOps, hConst: real, s: seq<Vec3>, n: nat)
    requires Sound(ops) && n <= |s|
    ensures WeightedSum(ops, hConst, 0.0, s, n) == PlainSum(s, n)
    ensures TotalWeight(ops, hConst, 0.0, n) == n as real
  {
    if n > 0 {
      StillSums(ops, hConst, s, n - 1);
      assert -((n - 1) as real) * hConst * 0.0 == 0.0;
      assert Weight(ops, n - 1, hConst, 0.0) == 1.0;
    }
  }

  /** A window that does not move (maxT = 0) gives every sample weight 1: the
      filter degenerates to the plain mean. */
  lemma StillWindowIsMean(ops: FloatOps, hConst: real, s: seq<Vec3>)
    requires Sound(ops) && |s| >= 1
    ensures Ewma(ops, hConst, 0.0, s) == DivBy(PlainSum(s, |s|), |s| as real)
  {
    StillSums(ops, hConst, s, |s|);
  }

  /** A window of identical samples has maxT = 0. */
  lemma {:induction false} ConstantWindowIsStill(ops: FloatOps, s: seq<Vec3>, n: nat)
    requires Sound(ops) && 1 <= n < |s|
    requires forall i :: 0 <= i < |s| ==> s[i] == s[0]
    ensures MaxSpreadUpTo(ops.magnitude, s, n) == 0.0
  {
    assert Sub(s[|s| - 1], s[|s| - 1 - n]) == Zero;
    if n > 1 {
      ConstantWindowIsStill(ops, s, n - 1);
    }
  }

  /** A window of identical samples is returned unchanged by smoothVector. */
  lemma ConstantWindowAverage(ops: FloatOps, hConst: real, w: seq<Vec3>)
    requires Sound(ops) && |w| >= 2
    requires forall i :: 0 <= i < |w| ==> w[i] == w[0]
    ensures WindowAverage(ops, hConst, w) == w[0]
  {
    ConstantWindow(ops, hConst, MaxSpread(ops.magnitude, w), w, w[0]);
  }
}
