/** Root translation: the driving joint's normalised image coordinates are
    mapped to roughly [-1, 1] metres, smoothed, and the root joint of the
    model (mTranslationJoint) is moved in X and Z by the scaled offset from
    a baseline frozen on the first full-state frame. */
module RootTranslation {
  import opened Geometry
  import opened WeightedAverage
  import opened SlidingWindow

  /** xT = ImgCoordNormHorizontal * 2 - 1. */
  function ImageX(h: real): (x: real)
    ensures h == (x + 1.0) / 2.0
    ensures 0.0 <= h <= 1.0 <==> -1.0 <= x <= 1.0
  {
    h * 2.0 - 1.0
  }

  /** yT = (-1 * ImgCoordNormVertical) * 2 + 1: the image's vertical axis
      points down, the world's up. */
  function ImageY(v: real): (y: real)
    ensures v == (1.0 - y) / 2.0
    ensures 0.0 <= v <= 1.0 <==> -1.0 <= y <= 1.0
  {
    (-1.0 * v) * 2.0 + 1.0
  }

  /** The sample (xT, yT, zT) written into the translation and scale buffers. */
  function ImagePoint(h: real, v: real, z: real): (p: Vec3)
    ensures p.z == z
  {
    Vec3(ImageX(h), ImageY(v), z)
  }

  /** Two image positions map to the same sample only if they are the same
      position: the mapping loses nothing. */
  lemma ImagePointInjective(h1: real, v1: real, h2: real, v2: real, z: real)
    requires ImagePoint(h1, v1, z) == ImagePoint(h2, v2, z)
    ensures h1 == h2 && v1 == v2
  {
    assert ImageX(h1) == ImageX(h2) && ImageY(v1) == ImageY(v2);
  }

  /** The root position written by the translation block: X and Z are the
      frozen pelvis position plus the scaled offset, Y is left alone. */
  function RootPosition(root: Vec3, pelvisFirst: Vec3, delta: Vec3, scale: Vec3): (p: Vec3)
    ensures p.y == root.y
    ensures delta == Zero ==> p.x == pelvisFirst.x && p.z == pelvisFirst.z
    ensures pelvisFirst == root && delta == Zero ==> p == root
  {
    Vec3(pelvisFirst.x + delta.x * scale.x, root.y, pelvisFirst.z + delta.z * scale.z)
  }

  /** Between any two frames after calibration the root moves in X and Z by
      exactly the scaled motion of the smoothed image position, whatever the
      baseline was: the baseline only fixes where the motion starts. */
  lemma RootFollowsSmoothedMotion(root1: Vec3, root2: Vec3, pelvisFirst: Vec3, baseline: Vec3,
                                  tt1: Vec3, tt2: Vec3, scale: Vec3)
    ensures RootPosition(root2, pelvisFirst, Sub(tt2, baseline), scale).x
            - RootPosition(root1, pelvisFirst, Sub(tt1, baseline), scale).x == (tt2.x - tt1.x) * scale.x
    ensures RootPosition(root2, pelvisFirst, Sub(tt2, baseline), scale).z
            - RootPosition(root1, pelvisFirst, Sub(tt1, baseline), scale).z == (tt2.z - tt1.z) * scale.z
  {
    assert (tt2.x - baseline.x) * scale.x - (tt1.x - baseline.x) * scale.x == (tt2.x - tt1.x) * scale.x;
    assert (tt2.z - baseline.z) * scale.z - (tt1.z - baseline.z) * scale.z == (tt2.z - tt1.z) * scale.z;
  }

  /** The state of the translation block: firstTranslationData,
      rootHipFirstPosition, rootHipDelta, pelvisFirstPosition and the
      position of the root joint. */
  datatype Root = Root(first: bool, hipFirst: Vec3, hipDelta: Vec3, pelvisFirst: Vec3, position: Vec3)

  /** The pivot and offset part of the translation block, given the smoothed
      translation window tt: the first time, tt and the root's position
      become the baselines; the root then moves in X and Z by the scaled
      offset of tt from its baseline. */
  function Translated(scale: Vec3, r: Root, tt: Vec3): (r': Root)
    ensures !r'.first
    ensures r'.hipDelta == Sub(tt, r'.hipFirst)
    ensures r'.position == RootPosition(r.position, r'.pelvisFirst, r'.hipDelta, scale)
    ensures r.first ==> r'.hipFirst == tt && r'.pelvisFirst == r.position && r'.hipDelta == Zero
    ensures !r.first ==> r'.hipFirst == r.hipFirst && r'.pelvisFirst == r.pelvisFirst
  {
    var hipFirst := if r.first then tt else r.hipFirst;
    var pelvisFirst := if r.first then r.position else r.pelvisFirst;
    var delta := Sub(tt, hipFirst);
    Root(false, hipFirst, delta, pelvisFirst, RootPosition(r.position, pelvisFirst, delta, scale))
  }

  /** What holds of the translation window (at fill index idx), of the
      translation samples ts and of the root: the baseline is frozen while
      the window fills; from the first full window on, the baseline is the
      smoothed first full window and the root sits at the frozen pelvis
      position plus the scaled offset of the latest smoothed window. */
  ghost predicate TranslationState(ops: FloatOps, hConst: real, scale: Vec3, k: nat, w: seq<Vec3>, idx: nat,
                                   ts: seq<Vec3>, r: Root)
    requires Sound(ops) && k >= 1
  {
    && TranslationWindow(w, idx, ts, k)
    && (r.first <==> |ts| <= k)
    && (|ts| > k ==>
          && r.hipFirst == WindowAverage(ops, hConst, FrozenWindow(ts[..k + 1], k))
          && r.hipDelta == Sub(WindowAverage(ops, hConst, FrozenWindow(ts, k)), r.hipFirst)
          && r.position.x == r.pelvisFirst.x + r.hipDelta.x * scale.x
          && r.position.z == r.pelvisFirst.z + r.hipDelta.z * scale.z)
  }

  /** A sample written while the translation window fills keeps the state. */
  lemma TranslateFilling(ops: FloatOps, hConst: real, scale: Vec3, k: nat, w: seq<Vec3>, idx: nat,
                         ts: seq<Vec3>, r: Root, p: Vec3)
    requires Sound(ops) && k >= 1 && TranslationState(ops, hConst, scale, k, w, idx, ts, r) && idx < k
    ensures TranslationState(ops, hConst, scale, k, w[idx + 1 := p], idx + 1, ts + [p], r)
  {
    TranslationFill(w, idx, ts, k, p);
  }

  /** The translation block on a full window keeps the state: the first time
      it freezes the baseline, later it only moves the root. */
  lemma TranslateFull(ops: FloatOps, hConst: real, scale: Vec3, k: nat, w: seq<Vec3>,
                      ts: seq<Vec3>, r: Root, p: Vec3)
    requires Sound(ops) && k >= 1 && TranslationState(ops, hConst, scale, k, w, k, ts, r)
    ensures TranslationState(ops, hConst, scale, k, w[k := p], k, ts + [p],
                             Translated(scale, r, WindowAverage(ops, hConst, w[k := p])))
  {
    var ts' := ts + [p];
    TranslationFull(w, ts, k, p);
    if r.first {
      assert ts'[..k + 1] == ts';
    } else {
      assert ts'[..k + 1] == ts[..k + 1];
    }
  }
}
