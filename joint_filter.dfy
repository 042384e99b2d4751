/** The per-joint state of the JointsUpdate behaviour as values: what its
    dictionaries hold for one joint, what one tracked sample does to them,
    and the invariant that ties them to the joint's history of samples. */
module JointFilters {
  import opened Geometry
  import opened Skeleton
  import opened WeightedAverage
  import opened DoubleExponential
  import opened SlidingWindow
  import opened Proximity
  import opened RootTranslation

  /** One joint's entries of jointsLastIndex, jointsModelFiltered,
      textureJointsFiltered and of prevSmoothedVector/trend. */
  datatype JointFilter = JointFilter(lastIndex: nat, modelFiltered: Vec3, textureFiltered: Vec3, des: DesState)

  /** The entries Start gives every joint. */
  const Unfiltered: JointFilter := JointFilter(0, Zero, Zero, Unset)

  /** The samples written so far into a joint's rotation window and into its
      scale window, oldest first. */
  datatype Samples = Samples(rotation: seq<Vec3>, scale: seq<Vec3>)

  const NoSamples: Samples := Samples([], [])

  /** One joint of a tracker frame: its tracking state, skeletonPoint X, Y, Z
      and the normalised image coordinates ImgCoordNormHorizontal/Vertical. */
  datatype TrackedJoint = TrackedJoint(tracked: bool, x: real, y: real, z: real, imgH: real, imgV: real)

  /** The sample Update takes from a tracked joint: (x, y, -|z|), so that the
      user always stands in front of the camera. */
  function Position(t: TrackedJoint): (p: Vec3)
    ensures p.x == t.x && p.y == t.y
    ensures p.z <= 0.0 && (p.z == t.z || p.z == -t.z)
  {
    Vec3(t.x, t.y, -Abs(t.z))
  }

  /** The image-space sample (xT, yT, DEPTH_CONSTANT) of scaleFiltering and
      of the filling branch of the translation block. */
  function ImageSample(t: TrackedJoint): (p: Vec3)
    ensures p.z == DepthConstant
    ensures p == ImagePoint(t.imgH, t.imgV, DepthConstant)
  {
    Vec3(ImageX(t.imgH), ImageY(t.imgV), DepthConstant)
  }

  /** The new fill index after a tracked sample: one more, up to K. */
  function NextIndex(idx: nat, k: nat): (n: nat)
    requires idx <= k
    ensures n <= k && (idx < k ==> n == idx + 1) && (idx == k ==> n == k)
  {
    if idx < k then idx + 1 else k
  }

  /** What holds of a joint's rotation window, filter state and filtered
      position after the tracked samples hist: under the moving average the
      position is the average of the last K+1 samples once there are that
      many, under double exponential smoothing it is the level of the filter
      that has seen every sample, and zero until the filter first runs. */
  ghost predicate RotationState(cfg: Config, ops: FloatOps, buf: seq<Vec3>, f: JointFilter, hist: seq<Vec3>)
    requires Sound(ops) && cfg.windowSizeK >= 1
  {
    var k := cfg.windowSizeK;
    && RotationWindow(buf, f.lastIndex, hist, k)
    && (cfg.filter == ExponentiallyWeightedMovingAverage ==>
          && f.des == Unset
          && f.modelFiltered == (if |hist| > k then WindowAverage(ops, cfg.hConst, LastN(hist, k + 1)) else Zero))
    && (cfg.filter == DoubleExponentialSmoothingFilter ==>
          && f.des == StateAfter(cfg.alphaDE, cfg.gammaDE, hist, k)
          && f.modelFiltered == (if Advanced(|hist|, k) then f.des.prevSmoothed else Zero))
  }

  /** What holds of a reference-bone joint's scale window and filtered image
      position after the scale samples hist. */
  ghost predicate ScaleState(cfg: Config, ops: FloatOps, buf: seq<Vec3>, f: JointFilter, hist: seq<Vec3>)
    requires Sound(ops) && cfg.windowSizeK >= 1
  {
    var k := cfg.windowSizeK;
    && ScaleWindow(buf, f.lastIndex, hist, k)
    && f.textureFiltered == (if |hist| > k then WindowAverage(ops, cfg.hConst, LastN(Effective(hist, k), k + 1)) else Zero)
  }

  /** The windows of one joint: jointsPositionBuffer[j] and, for a joint of
      the reference bone, textureJointsPositionBufferS[j] (empty otherwise). */
  datatype JointWindows = JointWindows(rotation: seq<Vec3>, scale: seq<Vec3>)

  /** The invariant of joint j: its rotation state, and for a joint of the
      reference bone its scale state, one scale sample per rotation sample. */
  ghost predicate JointState(cfg: Config, ops: FloatOps, j: JointType, w: JointWindows, f: JointFilter, s: Samples)
    requires Sound(ops) && cfg.windowSizeK >= 1
  {
    && RotationState(cfg, ops, w.rotation, f, s.rotation)
    && (IsScaleJoint(cfg.scaleBone, j) ==>
          |s.scale| == |s.rotation| && ScaleState(cfg, ops, w.scale, f, s.scale))
  }

  /** A joint's state right after Start satisfies its invariant. */
  lemma InitialJointState(cfg: Config, ops: FloatOps, j: JointType, w: JointWindows)
    requires ValidConfig(cfg) && Sound(ops)
    requires |w.rotation| == cfg.windowSizeK + 1 && forall i :: 0 <= i < |w.rotation| ==> w.rotation[i] == Zero
    requires IsScaleJoint(cfg.scaleBone, j) ==>
               |w.scale| == cfg.windowSizeK + 1 && forall i :: 0 <= i < |w.scale| ==> w.scale[i] == Zero
    ensures JointState(cfg, ops, j, w, Unfiltered, NoSamples)
  {
    if IsScaleJoint(cfg.scaleBone, j) {
      assert w.scale[0] == Zero;
    }
  }

  /** Block 1 of Update for a tracked sample x (rotation filtering). buf is
      the rotation window once x is written at slot lastIndex. When full,
      smoothVector or smoothVectorDE gives the filtered position; while
      filling, double exponential smoothing initialises on the second slot
      and runs from the third, and the index moves on. */
  function RotationFiltered(cfg: Config, ops: FloatOps, f: JointFilter, buf: seq<Vec3>, x: Vec3): (f': JointFilter)
    requires Sound(ops) && ValidConfig(cfg) && |buf| == cfg.windowSizeK + 1 && f.lastIndex <= cfg.windowSizeK
    ensures f'.lastIndex == NextIndex(f.lastIndex, cfg.windowSizeK)
    ensures f'.textureFiltered == f.textureFiltered
    ensures cfg.filter == ExponentiallyWeightedMovingAverage ==> f'.des == f.des
  {
    var k, idx := cfg.windowSizeK, f.lastIndex;
    var alpha, gamma := cfg.alphaDE, cfg.gammaDE;
    if idx == k then
      if cfg.filter == ExponentiallyWeightedMovingAverage then f.(modelFiltered := WindowAverage(ops, cfg.hConst, buf))
      else f.(modelFiltered := Smoothed(alpha, f.des, x), des := Advance(alpha, gamma, f.des, x))
    else if cfg.filter == DoubleExponentialSmoothingFilter && idx == 1 then
      f.(des := Initial(buf[1], buf[0]), lastIndex := idx + 1)
    else if cfg.filter == DoubleExponentialSmoothingFilter && idx > 1 then
      f.(modelFiltered := Smoothed(alpha, f.des, x), des := Advance(alpha, gamma, f.des, x), lastIndex := idx + 1)
    else
      f.(lastIndex := idx + 1)
  }

  /** The rotation window at the end of Update: shifted left when it was full. */
  function Settled(buf: seq<Vec3>, full: bool): (b: seq<Vec3>)
    requires |buf| >= 1
    ensures |b| == |buf|
  {
    if full then Shift(buf) else buf
  }

  /** Rotation filtering keeps the rotation state: after sample x the filter
      record and the settled window describe the history extended by x. */
  lemma RotationStep(cfg: Config, ops: FloatOps, buf: seq<Vec3>, f: JointFilter, hist: seq<Vec3>, x: Vec3)
    requires ValidConfig(cfg) && Sound(ops) && RotationState(cfg, ops, buf, f, hist)
    ensures var b := buf[f.lastIndex := x];
            RotationState(cfg, ops, Settled(b, f.lastIndex == cfg.windowSizeK),
                          RotationFiltered(cfg, ops, f, b, x), hist + [x])
  {
    var h := hist + [x];
    assert h[..|h| - 1] == hist;
    if f.lastIndex == cfg.windowSizeK {
      RotationStepFull(cfg, ops, buf, f, hist, x);
    } else {
      RotationStepFilling(cfg, ops, buf, f, hist, x);
    }
  }

  lemma RotationStepFull(cfg: Config, ops: FloatOps, buf: seq<Vec3>, f: JointFilter, hist: seq<Vec3>, x: Vec3)
    requires ValidConfig(cfg) && Sound(ops) && RotationState(cfg, ops, buf, f, hist)
    requires f.lastIndex == cfg.windowSizeK
    requires (hist + [x])[..|hist|] == hist
    ensures RotationState(cfg, ops, Shift(buf[f.lastIndex := x]), RotationFiltered(cfg, ops, f, buf[f.lastIndex := x], x), hist + [x])
  {
    var k, h := cfg.windowSizeK, hist + [x];
    RotationFull(buf, hist, k, x);
    var f' := RotationFiltered(cfg, ops, f, buf[k := x], x);
    if cfg.filter == ExponentiallyWeightedMovingAverage {
      assert f'.modelFiltered == WindowAverage(ops, cfg.hConst, LastN(h, k + 1));
    } else {
      assert StateAfter(cfg.alphaDE, cfg.gammaDE, h, k) == Advance(cfg.alphaDE, cfg.gammaDE, f.des, x);
      assert Advanced(|h|, k);
    }
  }

  lemma RotationStepFilling(cfg: Config, ops: FloatOps, buf: seq<Vec3>, f: JointFilter, hist: seq<Vec3>, x: Vec3)
    requires ValidConfig(cfg) && Sound(ops) && RotationState(cfg, ops, buf, f, hist)
    requires f.lastIndex < cfg.windowSizeK
    requires (hist + [x])[..|hist|] == hist
    ensures RotationState(cfg, ops, buf[f.lastIndex := x], RotationFiltered(cfg, ops, f, buf[f.lastIndex := x], x), hist + [x])
  {
    var idx := f.lastIndex;
    RotationFill(buf, idx, hist, cfg.windowSizeK, x);
    if idx == 1 {
      assert buf[idx := x][0] == hist[0];
    }
  }

  /** scaleFiltering: the image sample s is written at slot lastIndex (already
      moved on while filling); on a full window the filtered image position
      is the moving average of the window, which is then shifted. */
  function ScaleFiltered(cfg: Config, ops: FloatOps, f: JointFilter, buf: seq<Vec3>, full: bool): (f': JointFilter)
    requires Sound(ops) && ValidConfig(cfg) && |buf| == cfg.windowSizeK + 1
    ensures f'.lastIndex == f.lastIndex && f'.modelFiltered == f.modelFiltered && f'.des == f.des
    ensures !full ==> f' == f
  {
    if full then f.(textureFiltered := WindowAverage(ops, cfg.hConst, buf)) else f
  }

  /** Scale filtering keeps the scale state. It runs after the index has
      moved on, so the written slot is NextIndex(idx): slot 0 is never
      written while filling. */
  lemma ScaleStep(cfg: Config, ops: FloatOps, buf: seq<Vec3>, f: JointFilter, hist: seq<Vec3>, s: Vec3, f1: JointFilter)
    requires ValidConfig(cfg) && Sound(ops) && ScaleState(cfg, ops, buf, f, hist)
    requires f1.lastIndex == NextIndex(f.lastIndex, cfg.windowSizeK) && f1.textureFiltered == f.textureFiltered
    ensures var full := f.lastIndex == cfg.windowSizeK;
            var b := buf[f1.lastIndex := s];
            ScaleState(cfg, ops, Settled(b, full), ScaleFiltered(cfg, ops, f1, b, full), hist + [s])
  {
    var k, idx := cfg.windowSizeK, f.lastIndex;
    if idx == k {
      ScaleFull(buf, hist, k, s);
    } else {
      ScaleFill(buf, idx, hist, k, s);
    }
  }

  /** The samples a tracked joint adds: its position to the rotation history
      and, for a joint of the reference bone, its image sample to the scale
      history. */
  function Record(bone: ScaleBone, j: JointType, s: Samples, t: TrackedJoint): (s': Samples)
    ensures s'.rotation == s.rotation + [Position(t)]
    ensures IsScaleJoint(bone, j) ==> s'.scale == s.scale + [ImageSample(t)]
    ensures !IsScaleJoint(bone, j) ==> s'.scale == s.scale
  {
    Samples(s.rotation + [Position(t)], if IsScaleJoint(bone, j) then s.scale + [ImageSample(t)] else s.scale)
  }

  /** Update's work on the record of tracked joint j: rotation filtering of
      its position, then, for a joint of the reference bone, scale filtering
      of its image sample. */
  function Filtered(cfg: Config, ops: FloatOps, j: JointType, w: JointWindows, f: JointFilter, t: TrackedJoint): (f': JointFilter)
    requires Sound(ops) && ValidConfig(cfg) && |w.rotation| == cfg.windowSizeK + 1 && f.lastIndex <= cfg.windowSizeK
    requires IsScaleJoint(cfg.scaleBone, j) ==> |w.scale| == cfg.windowSizeK + 1
    ensures f'.lastIndex == NextIndex(f.lastIndex, cfg.windowSizeK)
  {
    var x := Position(t);
    var f1 := RotationFiltered(cfg, ops, f, w.rotation[f.lastIndex := x], x);
    if IsScaleJoint(cfg.scaleBone, j) then
      ScaleFiltered(cfg, ops, f1, w.scale[f1.lastIndex := ImageSample(t)], f.lastIndex == cfg.windowSizeK)
    else f1
  }

  /** The windows of tracked joint j once Update has written its samples and,
      on a full window, shifted them. */
  function Written(cfg: Config, j: JointType, w: JointWindows, f: JointFilter, t: TrackedJoint): (w': JointWindows)
    requires ValidConfig(cfg) && |w.rotation| == cfg.windowSizeK + 1 && f.lastIndex <= cfg.windowSizeK
    requires IsScaleJoint(cfg.scaleBone, j) ==> |w.scale| == cfg.windowSizeK + 1
    ensures |w'.rotation| == |w.rotation| && |w'.scale| == |w.scale|
    ensures !IsScaleJoint(cfg.scaleBone, j) ==> w'.scale == w.scale
  {
    var k, idx := cfg.windowSizeK, f.lastIndex;
    var rotation := Settled(w.rotation[idx := Position(t)], idx == k);
    if IsScaleJoint(cfg.scaleBone, j) then
      JointWindows(rotation, Settled(w.scale[NextIndex(idx, k) := ImageSample(t)], idx == k))
    else JointWindows(rotation, w.scale)
  }

  /** One tracked sample keeps the invariant of its joint. */
  lemma JointStep(cfg: Config, ops: FloatOps, j: JointType, w: JointWindows, f: JointFilter, s: Samples, t: TrackedJoint)
    requires ValidConfig(cfg) && Sound(ops) && JointState(cfg, ops, j, w, f, s)
    ensures JointState(cfg, ops, j, Written(cfg, j, w, f, t), Filtered(cfg, ops, j, w, f, t), Record(cfg.scaleBone, j, s, t))
  {
    JointRotationStep(cfg, ops, j, w, f, s.rotation, t);
    if IsScaleJoint(cfg.scaleBone, j) {
      JointScaleStep(cfg, ops, j, w, f, s.scale, t);
    }
  }

  lemma JointRotationStep(cfg: Config, ops: FloatOps, j: JointType, w: JointWindows, f: JointFilter, hist: seq<Vec3>, t: TrackedJoint)
    requires ValidConfig(cfg) && Sound(ops) && RotationState(cfg, ops, w.rotation, f, hist)
    requires IsScaleJoint(cfg.scaleBone, j) ==> |w.scale| == cfg.windowSizeK + 1
    ensures RotationState(cfg, ops, Written(cfg, j, w, f, t).rotation, Filtered(cfg, ops, j, w, f, t), hist + [Position(t)])
  {
    var x := Position(t);
    var b := w.rotation[f.lastIndex := x];
    var f1 := RotationFiltered(cfg, ops, f, b, x);
    RotationStep(cfg, ops, w.rotation, f, hist, x);
    if IsScaleJoint(cfg.scaleBone, j) {
      RotationStateTexture(cfg, ops, Settled(b, f.lastIndex == cfg.windowSizeK), f1, Filtered(cfg, ops, j, w, f, t), hist + [x]);
    }
  }

  lemma JointScaleStep(cfg: Config, ops: FloatOps, j: JointType, w: JointWindows, f: JointFilter, hist: seq<Vec3>, t: TrackedJoint)
    requires ValidConfig(cfg) && Sound(ops) && IsScaleJoint(cfg.scaleBone, j)
    requires |w.rotation| == cfg.windowSizeK + 1 && ScaleState(cfg, ops, w.scale, f, hist)
    ensures ScaleState(cfg, ops, Written(cfg, j, w, f, t).scale, Filtered(cfg, ops, j, w, f, t), hist + [ImageSample(t)])
  {
    var x := Position(t);
    var f1 := RotationFiltered(cfg, ops, f, w.rotation[f.lastIndex := x], x);
    ScaleStep(cfg, ops, w.scale, f, hist, ImageSample(t), f1);
  }

  /** The rotation state does not depend on the filtered image position. */
  lemma RotationStateTexture(cfg: Config, ops: FloatOps, buf: seq<Vec3>, f: JointFilter, f': JointFilter, hist: seq<Vec3>)
    requires Sound(ops) && cfg.windowSizeK >= 1 && RotationState(cfg, ops, buf, f, hist)
    requires f' == f.(textureFiltered := f'.textureFiltered)
    ensures RotationState(cfg, ops, buf, f', hist)
  {
  }

  /** What the behaviour keeps for one joint: its entries of the filter
      dictionaries and its windows. */
  datatype JointRecord = JointRecord(filter: JointFilter, windows: JointWindows)

  /** The shape Update relies on: a rotation window of K+1 samples, a fill
      index of at most K, and for a joint of the reference bone a scale
      window of K+1 samples. */
  predicate Sized(cfg: Config, j: JointType, e: JointRecord) {
    && |e.windows.rotation| == cfg.windowSizeK + 1 && e.filter.lastIndex <= cfg.windowSizeK
    && (IsScaleJoint(cfg.scaleBone, j) ==> |e.windows.scale| == cfg.windowSizeK + 1)
  }

  /** Block 1 (FilterRotation) on one joint: x goes into the rotation window
      at the fill index and the filter runs as RotationFiltered says. */
  function RotationBlock(cfg: Config, ops: FloatOps, e: JointRecord, x: Vec3): (e': JointRecord)
    requires Sound(ops) && ValidConfig(cfg) && |e.windows.rotation| == cfg.windowSizeK + 1
    requires e.filter.lastIndex <= cfg.windowSizeK
    ensures e'.windows.scale == e.windows.scale && |e'.windows.rotation| == |e.windows.rotation|
    ensures e'.filter.lastIndex == NextIndex(e.filter.lastIndex, cfg.windowSizeK)
  {
    var buf := e.windows.rotation[e.filter.lastIndex := x];
    JointRecord(RotationFiltered(cfg, ops, e.filter, buf, x), e.windows.(rotation := buf))
  }

  /** Block 2 (scaleFiltering) on one joint: the image sample s goes into the
      scale window at the fill index; a full window is averaged into the
      filtered image position and shifted. */
  function ScaleBlock(cfg: Config, ops: FloatOps, e: JointRecord, s: Vec3, full: bool): (e': JointRecord)
    requires Sound(ops) && ValidConfig(cfg) && |e.windows.scale| == cfg.windowSizeK + 1
    requires e.filter.lastIndex <= cfg.windowSizeK
    ensures e'.windows.rotation == e.windows.rotation && |e'.windows.scale| == |e.windows.scale|
    ensures e'.filter.lastIndex == e.filter.lastIndex
  {
    var b := e.windows.scale[e.filter.lastIndex := s];
    JointRecord(ScaleFiltered(cfg, ops, e.filter, b, full), e.windows.(scale := Settled(b, full)))
  }

  /** The end of the full branch: the rotation window shifted left. */
  function ShiftBlock(e: JointRecord): (e': JointRecord)
    requires |e.windows.rotation| >= 1
    ensures e'.filter == e.filter && e'.windows.scale == e.windows.scale
    ensures |e'.windows.rotation| == |e.windows.rotation|
  {
    e.(windows := e.windows.(rotation := Shift(e.windows.rotation)))
  }

  /** Blocks 1 and 2 of Update on tracked joint j: rotation filtering, then
      scale filtering for a joint of the reference bone. */
  function Blocks(cfg: Config, ops: FloatOps, j: JointType, e: JointRecord, t: TrackedJoint): (e': JointRecord)
    requires Sound(ops) && ValidConfig(cfg) && Sized(cfg, j, e)
    ensures Sized(cfg, j, e')
    ensures e'.filter.lastIndex == NextIndex(e.filter.lastIndex, cfg.windowSizeK)
  {
    var e1 := RotationBlock(cfg, ops, e, Position(t));
    if IsScaleJoint(cfg.scaleBone, j) then ScaleBlock(cfg, ops, e1, ImageSample(t), e.filter.lastIndex == cfg.windowSizeK)
    else e1
  }

  /** The blocks of Update on tracked joint j, in the order the code runs
      them: blocks 1 and 2, then the shift when the window was full.
      Together they do what Filtered and Written say. */
  function Stepped(cfg: Config, ops: FloatOps, j: JointType, e: JointRecord, t: TrackedJoint): (e': JointRecord)
    requires Sound(ops) && ValidConfig(cfg) && Sized(cfg, j, e)
    ensures e' == JointRecord(Filtered(cfg, ops, j, e.windows, e.filter, t), Written(cfg, j, e.windows, e.filter, t))
    ensures Sized(cfg, j, e')
  {
    var e2 := Blocks(cfg, ops, j, e, t);
    if e.filter.lastIndex == cfg.windowSizeK then ShiftBlock(e2) else e2
  }

  /** The invariant of every joint, over the dictionary of joint records and
      the samples. */
  ghost predicate JointsOk(cfg: Config, ops: FloatOps, joints: map<JointType, JointRecord>,
                           samples: map<JointType, Samples>)
    requires Sound(ops) && cfg.windowSizeK >= 1
  {
    && (forall j :: j in joints && j in samples)
    && forall j :: JointState(cfg, ops, j, joints[j].windows, joints[j].filter, samples[j])
  }

  /** Replacing the record and samples of one joint by ones that keep its
      invariant keeps the invariant of every joint. */
  lemma JointsOkUpdate(cfg: Config, ops: FloatOps, joints: map<JointType, JointRecord>,
                       samples: map<JointType, Samples>, j: JointType, e: JointRecord, s: Samples)
    requires Sound(ops) && cfg.windowSizeK >= 1 && JointsOk(cfg, ops, joints, samples)
    requires JointState(cfg, ops, j, e.windows, e.filter, s)
    ensures JointsOk(cfg, ops, joints[j := e], samples[j := s])
  {
    var joints', samples' := joints[j := e], samples[j := s];
    forall j' ensures JointState(cfg, ops, j', joints'[j'].windows, joints'[j'].filter, samples'[j']) {
      if j' != j {
        assert joints'[j'] == joints[j'] && samples'[j'] == samples[j'];
      }
    }
  }

  /** One tracked sample, run through the blocks of Update, keeps the
      invariant of every joint. */
  lemma JointsOkStep(cfg: Config, ops: FloatOps, joints: map<JointType, JointRecord>,
                     samples: map<JointType, Samples>, j: JointType, t: TrackedJoint)
    requires ValidConfig(cfg) && Sound(ops) && JointsOk(cfg, ops, joints, samples) && Sized(cfg, j, joints[j])
    ensures JointsOk(cfg, ops, joints[j := Stepped(cfg, ops, j, joints[j], t)],
                     samples[j := Record(cfg.scaleBone, j, samples[j], t)])
  {
    var e := joints[j];
    JointStep(cfg, ops, j, e.windows, e.filter, samples[j], t);
    JointsOkUpdate(cfg, ops, joints, samples, j, Stepped(cfg, ops, j, e, t), Record(cfg.scaleBone, j, samples[j], t));
  }
}
