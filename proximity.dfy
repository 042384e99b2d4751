/** Proximity estimation (calculateScaleFiltered, calculateTranslationInZ):
    the filtered length of a reference bone is captured as a baseline once
    five non-zero observations have been seen, after which the ratio of the
    current length to the baseline gives the user's change of distance. */
module Proximity {
  import opened Geometry

  /** DEPTH_CONSTANT: the depth of the reference plane. */
  const DepthConstant: real := 1.0

  /** How many non-zero observations end the capture (DataCaptureIndex > 4). */
  const CaptureLength: nat := 5

  /** firstDataCapture, DataCaptureIndex and firstCaptureSizeOfRelativeBone. */
  datatype Capture = Capture(first: bool, index: nat, size: Vec3)

  /** The values Start leaves. */
  const Start: Capture := Capture(true, 0, Zero)

  /** What holds of the capture state at every call: the index counts up to
      five, capture is on exactly until it gets there, and once it is off the
      frozen baseline is a non-zero bone. */
  predicate CaptureInvariant(c: Capture) {
    && c.index <= CaptureLength
    && (c.first <==> c.index < CaptureLength)
    && (!c.first ==> c.size != Zero)
  }

  /** The capture state after one call with the current bone vector
      (textureJointsFiltered[first] - textureJointsFiltered[second]): while
      capturing, the baseline is overwritten every time and the index moves
      on only for a non-zero bone; afterwards nothing changes. */
  function CaptureStep(c: Capture, bone: Vec3): (c': Capture)
    ensures CaptureInvariant(c) ==> CaptureInvariant(c')
    ensures !c.first ==> c' == c
    ensures c.first ==> c'.size == bone
    ensures c'.index == (if c.first && bone != Zero then c.index + 1 else c.index)
  {
    if c.first then
      var index := if bone != Zero then c.index + 1 else c.index;
      Capture(if bone != Zero then !(index > 4) else true, index, bone)
    else c
  }

  /** The coefficient calculateScaleFiltered returns: 1 while capturing, then
      |bone| / |baseline|. */
  function Coefficient(ops: FloatOps, c: Capture, bone: Vec3): (coeff: real)
    requires Sound(ops) && CaptureInvariant(c)
    ensures c.first ==> coeff == 1.0
    ensures coeff >= 0.0
    ensures !c.first ==> (coeff == 0.0 <==> bone == Zero)
    ensures !c.first ==> coeff * ops.magnitude(c.size) == ops.magnitude(bone)
  {
    if c.first then 1.0 else ops.magnitude(bone) / ops.magnitude(c.size)
  }

  /** With a Euclidean magnitude, a bone that is s times the baseline gives
      coefficient s: the coefficient measures the relative size change. */
  lemma CoefficientIsRatio(ops: FloatOps, c: Capture, s: real)
    requires Sound(ops) && Homogeneous(ops.magnitude) && CaptureInvariant(c) && !c.first && s >= 0.0
    ensures Coefficient(ops, c, Scale(s, c.size)) == s
  {
    var m := ops.magnitude(c.size);
    assert m > 0.0;
    assert ops.magnitude(Scale(s, c.size)) == s * m;
  }

  /** The capture state after a run of calls. */
  function Run(c: Capture, bones: seq<Vec3>): Capture
    decreases |bones|
  {
    if bones == [] then c else Run(CaptureStep(c, bones[0]), bones[1..])
  }

  /** One more call extends the run by one step. */
  lemma {:induction false} RunAppend(c: Capture, bones: seq<Vec3>, bone: Vec3)
    ensures Run(c, bones + [bone]) == CaptureStep(Run(c, bones), bone)
    decreases |bones|
  {
    if bones == [] {
      assert Run(CaptureStep(c, bone), []) == CaptureStep(c, bone);
    } else {
      assert (bones + [bone])[1..] == bones[1..] + [bone];
      RunAppend(CaptureStep(c, bones[0]), bones[1..], bone);
    }
  }

  /** How many of the bones are non-zero. */
  function NonZeroCount(bones: seq<Vec3>): nat
    decreases |bones|
  {
    if bones == [] then 0 else (if bones[0] != Zero then 1 else 0) + NonZeroCount(bones[1..])
  }

  function Min(a: nat, b: nat): nat {
    if a < b then a else b
  }

  /** From any reachable capturing state, the index counts the non-zero
      bones seen (capped at five), and capture ends exactly when it reaches
      five: zero bones in between neither count nor restart the count. */
  lemma {:induction false} RunCounts(c: Capture, bones: seq<Vec3>)
    requires CaptureInvariant(c)
    ensures CaptureInvariant(Run(c, bones))
    ensures Run(c, bones).index == Min(c.index + NonZeroCount(bones), CaptureLength)
    ensures Run(c, bones).first <==> c.index + NonZeroCount(bones) < CaptureLength
    decreases |bones|
  {
    if bones != [] {
      RunCounts(CaptureStep(c, bones[0]), bones[1..]);
    }
  }

  /** From Start: capture ends after the fifth non-zero bone, counted over the
      whole run rather than consecutively. */
  lemma CaptureEndsAfterFiveNonZero(bones: seq<Vec3>)
    ensures !Run(Start, bones).first <==> NonZeroCount(bones) >= 5
    ensures Run(Start, bones).index == Min(NonZeroCount(bones), 5)
  {
    RunCounts(Start, bones);
  }

  /** Once capture has ended, further calls leave the baseline alone. */
  lemma {:induction false} BaselineFrozen(c: Capture, bones: seq<Vec3>)
    requires !c.first
    ensures Run(c, bones) == c
    decreases |bones|
  {
    if bones != [] {
      BaselineFrozen(CaptureStep(c, bones[0]), bones[1..]);
    }
  }

  /** calculateTranslationInZ: with d = firstDistanceFromCamera,
      DEPTH_CONSTANT - (d / coeff - d). Float division by a zero coefficient
      goes through the unspecified part of `divide`. */
  function TranslationInZ(ops: FloatOps, d: real, coeff: real): (zT: real)
    requires Sound(ops)
    ensures coeff == 1.0 ==> zT == DepthConstant
    ensures coeff != 0.0 ==> zT == DepthConstant + d - d / coeff
  {
    DepthConstant - (ops.divide(d, coeff) - d)
  }

  /** A bone that grows (the user comes closer) raises zT above the reference
      depth, and one that shrinks lowers it, for a positive first distance. */
  lemma TranslationInZDirection(ops: FloatOps, d: real, coeff: real)
    requires Sound(ops) && d > 0.0 && coeff > 0.0
    ensures coeff > 1.0 ==> TranslationInZ(ops, d, coeff) > DepthConstant
    ensures coeff < 1.0 ==> TranslationInZ(ops, d, coeff) < DepthConstant
  {
    if coeff > 1.0 {
      assert d / coeff < d by {
        assert d / coeff * coeff == d;
      }
    } else if coeff < 1.0 {
      var q := d / coeff;
      assert q > 0.0;
      assert q - d == q * (1.0 - coeff);
      assert q * (1.0 - coeff) > 0.0;
    }
  }
}
