/** The JointsUpdate behaviour: the state it keeps between frames and the
    per-frame work of MyDataFrameReady and Update. For every joint, the
    filtered position, the filter state and the windows are tied by the
    class invariant to the joint's history of tracked samples. */
module Pipeline {
  import opened Geometry
  import opened Skeleton
  import opened WeightedAverage
  import opened DoubleExponential
  import opened SlidingWindow
  import opened FrameGate
  import opened Proximity
  import opened RootTranslation
  import opened Retarget
  import opened JointFilters
  import opened Behaviour

  /** The dictionary of a frame's joints, one entry per joint type. */
  function Snapshot(skeleton: JointType -> TrackedJoint): (m: map<JointType, TrackedJoint>)
    ensures forall j :: j in m && m[j] == skeleton(j)
  {
    JointOrderIsPermutation();
    map j | j in AllJoints :: skeleton(j)
  }

  class JointsUpdate {
    /** The inspector options. */
    const cfg: Config
    /** Math.Pow(Math.E, _), Vector3.magnitude and float division. */
    const ops: FloatOps
    /** boneDirection, fixed by skeletonInit. */
    const boneDirection: seq<Vec3>

    var lastFrameId: int
    /** The latest accepted frame (typesToJoints). */
    var typesToJoints: map<JointType, TrackedJoint>
    /** Per joint: jointsLastIndex, jointsModelFiltered,
        textureJointsFiltered, prevSmoothedVector and trend, with the joint's
        windows in jointsPositionBuffer and textureJointsPositionBufferS. */
    var joints: map<JointType, JointRecord>
    /** textureJointsPositionBufferT of the driving joint: K+1 samples. */
    var translationWindow: seq<Vec3>
    /** firstDataCapture, DataCaptureIndex, firstCaptureSizeOfRelativeBone. */
    var capture: Capture
    var firstTranslationData: bool
    var rootHipFirstPosition: Vec3
    var rootHipDelta: Vec3
    var pelvisFirstPosition: Vec3
    var firstDistanceFromCamera: real
    /** mTranslationJoint.position. */
    var rootPosition: Vec3
    /** jointsModel[type].localRotation. */
    var localRotation: map<JointType, Rotation>

    /** The samples written so far into each joint's rotation and scale
        windows, into the driving joint's translation window, and the bones
        calculateScaleFiltered has measured. */
    ghost var samples: map<JointType, Samples>
    ghost var translationSamples: seq<Vec3>
    ghost var bones: seq<Vec3>

    function K(): nat {
      cfg.windowSizeK
    }

    /** What never changes after construction. */
    ghost predicate Fixed() {
      ValidConfig(cfg) && Sound(ops) && |boneDirection| == |Bones|
    }

    /** Once a frame has been accepted the snapshot holds every joint. */
    ghost predicate SnapshotOk()
      reads this`typesToJoints
    {
      Head in typesToJoints ==> forall j :: j in typesToJoints
    }

    /** The state of the translation block. */
    function RootView(): Root
      reads this`firstTranslationData, this`rootHipFirstPosition, this`rootHipDelta, this`pelvisFirstPosition,
            this`rootPosition
    {
      Root(firstTranslationData, rootHipFirstPosition, rootHipDelta, pelvisFirstPosition, rootPosition)
    }

    /** The state of block 3 as a value. */
    ghost function TranslationView(): Translation
      reads this`translationWindow, this`translationSamples, this`capture, this`bones, this`firstTranslationData,
            this`rootHipFirstPosition, this`rootHipDelta, this`pelvisFirstPosition, this`rootPosition,
            this`firstDistanceFromCamera
    {
      Translation(translationWindow, translationSamples, capture, bones, RootView(), firstDistanceFromCamera)
    }

    /** The state as a value. */
    ghost function View(): State
      reads this`joints, this`samples, this`localRotation, this`translationWindow, this`translationSamples,
            this`capture, this`bones, this`firstTranslationData, this`rootHipFirstPosition, this`rootHipDelta,
            this`pelvisFirstPosition, this`rootPosition, this`firstDistanceFromCamera
    {
      State(joints, samples, localRotation, TranslationView())
    }

    /** The class invariant: the state satisfies StateOk. The frame gate and
        the snapshot are not part of it: MyDataFrameReady changes them on its
        own. */
    ghost predicate Valid()
      reads this`joints, this`samples, this`localRotation, this`translationWindow, this`translationSamples,
            this`capture, this`bones, this`firstTranslationData, this`rootHipFirstPosition, this`rootHipDelta,
            this`pelvisFirstPosition, this`rootPosition, this`firstDistanceFromCamera
    {
      Fixed() && StateOk(cfg, ops, View())
    }

    /** Start (with CreateJoints and skeletonInit): a window of K+1 zero
        samples for every joint and for the six joints with a scale window,
        a zero translation window; the state InitialState describes. The
        model's bind pose and the root's starting position are engine state
        and come in as parameters. */
    constructor (cfg: Config, ops: FloatOps, bindPosition: JointType -> Vec3, root: Vec3)
      requires ValidConfig(cfg) && Sound(ops)
      ensures Valid() && SnapshotOk() && View() == InitialState(cfg, root)
      ensures this.cfg == cfg && this.ops == ops && boneDirection == BoneDirections(bindPosition)
      ensures lastFrameId == InitialFrameId && typesToJoints == map[]
    {
      var k := cfg.windowSizeK;
      this.cfg := cfg;
      this.ops := ops;
      boneDirection := BoneDirections(bindPosition);
      lastFrameId := InitialFrameId;
      typesToJoints := map[];
      joints := InitialJoints(cfg);
      translationWindow := Zeros(k);
      capture := Start;
      firstTranslationData := true;
      rootHipFirstPosition := Zero;
      rootHipDelta := Zero;
      pelvisFirstPosition := Zero;
      firstDistanceFromCamera := 0.0;
      rootPosition := root;
      localRotation := BindPose();
      samples := Everywhere(NoSamples);
      translationSamples := [];
      bones := [];
      new;
      InitialStateOk(cfg, ops, root);
    }

    /** MyDataFrameReady: a frame that passes the gate becomes the snapshot
        Update reads; a dropped frame changes nothing. It touches neither the
        filter state nor the buffers, so Valid() is kept by framing. */
    method DataFrameReady(frameId: int, skeleton: JointType -> TrackedJoint)
      requires SnapshotOk()
      modifies this`lastFrameId, this`typesToJoints
      ensures SnapshotOk()
      ensures lastFrameId == Gate(old(lastFrameId), frameId)
      ensures Accepts(old(lastFrameId), frameId) ==> typesToJoints == Snapshot(skeleton)
      ensures !Accepts(old(lastFrameId), frameId) ==> typesToJoints == old(typesToJoints)
    {
      if frameId <= lastFrameId && frameId != ResetFrameId {
        return;
      }
      lastFrameId := frameId;
      typesToJoints := Snapshot(skeleton);
    }

    /** smoothVectorDEInit: the level starts at X0 and the trend is X1 - X0. */
    method SmoothVectorDEInit(x1: Vec3, x0: Vec3, j: JointType)
      requires j in joints
      modifies this`joints
      ensures joints == old(joints)[j := old(joints[j]).(filter := old(joints[j].filter).(des := Initial(x1, x0)))]
    {
      joints := joints[j := joints[j].(filter := joints[j].filter.(des := DesState(x0, Sub(x1, x0))))];
    }

    /** smoothVectorDE: one step of the filter on sample xn. */
    method SmoothVectorDE(xn: Vec3, j: JointType) returns (s: Vec3)
      requires j in joints
      modifies this`joints
      ensures s == Smoothed(cfg.alphaDE, old(joints[j].filter.des), xn)
      ensures joints == old(joints)[j := old(joints[j]).(filter :=
                old(joints[j].filter).(des := Advance(cfg.alphaDE, cfg.gammaDE, old(joints[j].filter.des), xn)))]
    {
      var alpha, gamma := cfg.alphaDE, cfg.gammaDE;
      var prev := joints[j].filter.des.prevSmoothed;
      var trend := joints[j].filter.des.trend;
      s := Add(Scale(alpha, xn), Scale(1.0 - alpha, Add(prev, trend)));
      trend := Add(Scale(gamma, Sub(s, prev)), Scale(1.0 - gamma, trend));
      joints := joints[j := joints[j].(filter := joints[j].filter.(des := DesState(s, trend)))];
    }

    /** RotateJointWithAngle: one more factor on the joint's local rotation,
        multiplied on the right. */
    method RotateJointWithAngle(target: Vec3, direction: Vec3, j: JointType)
      requires j in localRotation
      modifies this`localRotation
      ensures localRotation == old(localRotation)[j := Then(old(localRotation[j]), Align(direction, target))]
    {
      localRotation := localRotation[j := Then(localRotation[j], Align(direction, target))];
    }

    /** jointPosition. */
    function JointPosition(j: JointType): (p: Vec3)
      reads this`joints
      requires j in joints
      ensures p == ModelPositions(joints)[j]
    {
      joints[j].filter.modelFiltered
    }

    /** RotateJoint: the rotations the switch issues for joint j, applied in
        order. */
    method RotateJoint(j: JointType)
      requires |boneDirection| == |Bones| && (forall j :: j in joints) && j in localRotation
      modifies this`localRotation
      ensures localRotation == old(localRotation)[j :=
        Compose(old(localRotation[j]), Aligns(Requests(j, cfg.transmissionOnHead), ModelPositions(joints), boneDirection))]
    {
      ghost var q := localRotation[j];
      ghost var steps := Aligns(Requests(j, cfg.transmissionOnHead), ModelPositions(joints), boneDirection);
      var target: Vec3;
      match j {
        case HipCenter =>
          target := Sub(JointPosition(Spine), JointPosition(HipCenter));
          RotateJointWithAngle(target, boneDirection[0], j);
          assert steps == [Align(boneDirection[0], target)];
        case Spine =>
          target := Sub(JointPosition(ShoulderCenter), JointPosition(Spine));
          RotateJointWithAngle(target, boneDirection[1], j);
          assert steps == [Align(boneDirection[1], target)];
        case ShoulderCenter =>
          RotateShoulderCenter();
        case Head =>
          if cfg.transmissionOnHead {
            target := Sub(JointPosition(ShoulderCenter), JointPosition(Head));
            target := Vec3(target.x * 3.0, target.y, target.z);
            RotateJointWithAngle(target, boneDirection[OrderIndex(Head) - 1], j);
            assert steps == [Align(boneDirection[2], target)];
          }
        case ShoulderLeft =>
          target := Sub(JointPosition(ElbowLeft), JointPosition(ShoulderLeft));
          RotateJointWithAngle(target, boneDirection[5], j);
          assert steps == [Align(boneDirection[5], target)];
        case ShoulderRight =>
          target := Sub(JointPosition(ElbowRight), JointPosition(ShoulderRight));
          RotateJointWithAngle(target, boneDirection[6], j);
          assert steps == [Align(boneDirection[6], target)];
        case ElbowLeft =>
          target := Sub(JointPosition(HandLeft), JointPosition(ElbowLeft));
          RotateJointWithAngle(target, boneDirection[7], j);
          assert steps == [Align(boneDirection[7], target)];
        case ElbowRight =>
          target := Sub(JointPosition(HandRight), JointPosition(ElbowRight));
          RotateJointWithAngle(target, boneDirection[8], j);
          assert steps == [Align(boneDirection[8], target)];
        case HandLeft =>
        case HandRight =>
      }
    }

    /** The ShoulderCenter case of RotateJoint: three rotations, towards
        ShoulderLeft, ShoulderRight and Head in that order. */
    method RotateShoulderCenter()
      requires |boneDirection| == |Bones| && (forall j :: j in joints) && ShoulderCenter in localRotation
      modifies this`localRotation
      ensures localRotation == old(localRotation)[ShoulderCenter :=
        Compose(old(localRotation[ShoulderCenter]), Aligns(Requests(ShoulderCenter, cfg.transmissionOnHead), ModelPositions(joints), boneDirection))]
    {
      var j := ShoulderCenter;
      ghost var q := localRotation[j];
      ghost var steps := Aligns(Requests(j, cfg.transmissionOnHead), ModelPositions(joints), boneDirection);
      var target: Vec3;
      target := Sub(JointPosition(ShoulderLeft), JointPosition(ShoulderCenter));
      RotateJointWithAngle(target, boneDirection[2], j);
      ghost var first := Align(boneDirection[2], target);
      target := Sub(JointPosition(ShoulderRight), JointPosition(ShoulderCenter));
      RotateJointWithAngle(target, boneDirection[3], j);
      ghost var second := Align(boneDirection[3], target);
      target := Sub(JointPosition(Head), JointPosition(ShoulderCenter));
      RotateJointWithAngle(target, boneDirection[4], j);
      ghost var third := Align(boneDirection[4], target);
      assert steps == [first, second, third];
      assert Compose(q, steps) == Compose(Then(q, first), steps[1..]);
      assert Compose(Then(q, first), steps[1..]) == Compose(Then(Then(q, first), second), steps[2..]);
      assert Compose(Then(Then(q, first), second), steps[2..]) == Compose(Then(Then(Then(q, first), second), third), []);
    }

    /** Block 1 of Update (filtering for rotation): x goes into the rotation
        window at the fill index, then the filter runs as RotationBlock
        says. */
    method FilterRotation(j: JointType, x: Vec3)
      requires Fixed() && j in joints && |joints[j].windows.rotation| == K() + 1 && joints[j].filter.lastIndex <= K()
      modifies this`joints
      ensures joints == old(joints)[j := RotationBlock(cfg, ops, old(joints[j]), x)]
    {
      var idx := joints[j].filter.lastIndex;
      ghost var e1 := joints[j].(windows := joints[j].windows.(rotation := joints[j].windows.rotation[idx := x]));
      joints := joints[j := joints[j].(windows := joints[j].windows.(rotation := joints[j].windows.rotation[idx := x]))];
      if idx == K() {
        FilterRotationFull(j, x);
      } else {
        FilterRotationFilling(j, x);
      }
      Overwrite(old(joints), j, e1, e1.(filter := RotationFiltered(cfg, ops, e1.filter, e1.windows.rotation, x)));
    }

    /** Block 1 on a full window, after x has been written into slot K: the
        window is smoothed (smoothVector) or the double exponential filter
        steps (smoothVectorDE) into jointsModelFiltered. */
    method FilterRotationFull(j: JointType, x: Vec3)
      requires Fixed() && j in joints && |joints[j].windows.rotation| == K() + 1
      requires joints[j].filter.lastIndex == K() && joints[j].windows.rotation[K()] == x
      modifies this`joints
      ensures joints == old(joints)[j := old(joints[j]).(filter :=
                RotationFiltered(cfg, ops, old(joints[j].filter), old(joints[j].windows.rotation), x))]
    {
      var k := K();
      if cfg.filter == ExponentiallyWeightedMovingAverage {
        var r := SmoothVector(ops, cfg.hConst, joints[j].windows.rotation, k);
        joints := joints[j := joints[j].(filter := joints[j].filter.(modelFiltered := r))];
      }
      if cfg.filter == DoubleExponentialSmoothingFilter {
        var s := SmoothVectorDE(joints[j].windows.rotation[k], j);
        joints := joints[j := joints[j].(filter := joints[j].filter.(modelFiltered := s))];
      }
    }

    /** Block 1 while the window fills, after x has been written at the fill
        index idx: the double exponential filter initialises at idx 1 and
        steps from idx 2 on, and the index moves on. */
    method FilterRotationFilling(j: JointType, x: Vec3)
      requires Fixed() && j in joints && |joints[j].windows.rotation| == K() + 1
      requires joints[j].filter.lastIndex < K() && joints[j].windows.rotation[joints[j].filter.lastIndex] == x
      modifies this`joints
      ensures joints == old(joints)[j := old(joints[j]).(filter :=
                RotationFiltered(cfg, ops, old(joints[j].filter), old(joints[j].windows.rotation), x))]
    {
      var idx := joints[j].filter.lastIndex;
      if cfg.filter == DoubleExponentialSmoothingFilter {
        if idx == 1 {
          SmoothVectorDEInit(joints[j].windows.rotation[1], joints[j].windows.rotation[0], j);
        }
        if idx > 1 {
          var s := SmoothVectorDE(joints[j].windows.rotation[idx], j);
          joints := joints[j := joints[j].(filter := joints[j].filter.(modelFiltered := s))];
        }
      }
      joints := joints[j := joints[j].(filter := joints[j].filter.(lastIndex := idx + 1))];
    }

    /** scaleFiltering: the image sample of t goes into the scale window at
        the fill index; on a full window the window is smoothed into
        textureJointsFiltered and shifted, as ScaleBlock says. */
    method ScaleFiltering(j: JointType, t: TrackedJoint, filled: bool)
      requires Fixed() && j in joints && |joints[j].windows.scale| == K() + 1 && joints[j].filter.lastIndex <= K()
      modifies this`joints
      ensures joints == old(joints)[j := ScaleBlock(cfg, ops, old(joints[j]), ImageSample(t), filled)]
    {
      var e := joints[j];
      e := e.(windows := e.windows.(scale := e.windows.scale[e.filter.lastIndex := ImageSample(t)]));
      if filled {
        var tt := SmoothVector(ops, cfg.hConst, e.windows.scale, K());
        e := e.(filter := e.filter.(textureFiltered := tt));
        var shifted := ShiftLeft(e.windows.scale, K());
        e := e.(windows := e.windows.(scale := shifted));
      }
      joints := joints[j := e];
    }

    /** calculateScaleFiltered: 1 while the baseline is being captured (and
        the capture moves on), then the ratio of the bone to the baseline. */
    method CalculateScaleFiltered() returns (coeff: real)
      requires Sound(ops) && CaptureInvariant(capture) && forall j :: j in joints
      modifies this`capture, this`bones
      ensures var bone := ReferenceBone(cfg.scaleBone, joints);
              && coeff == Coefficient(ops, old(capture), bone)
              && capture == CaptureStep(old(capture), bone)
              && bones == old(bones) + [bone]
    {
      var p := ScalePair(cfg.scaleBone);
      var boneSize := Sub(joints[p.0].filter.textureFiltered, joints[p.1].filter.textureFiltered);
      coeff := 1.0;
      if capture.first {
        var first, index := capture.first, capture.index;
        if boneSize != Zero {
          index := index + 1;
          if index > 4 {
            first := false;
          }
        }
        capture := Capture(first, index, boneSize);
      } else {
        coeff := ops.magnitude(boneSize) / ops.magnitude(capture.size);
      }
      bones := bones + [boneSize];
    }

    /** calculateTranslationInZ. */
    method CalculateTranslationInZ() returns (zT: real)
      requires Sound(ops) && CaptureInvariant(capture) && forall j :: j in joints
      modifies this`capture, this`bones
      ensures var bone := ReferenceBone(cfg.scaleBone, joints);
              && zT == TranslationInZ(ops, firstDistanceFromCamera, Coefficient(ops, old(capture), bone))
              && capture == CaptureStep(old(capture), bone)
              && bones == old(bones) + [bone]
    {
      var coeff := CalculateScaleFiltered();
      var currentDistanceFromCamera := ops.divide(firstDistanceFromCamera, coeff);
      var deltaDistance := currentDistanceFromCamera - firstDistanceFromCamera;
      zT := DepthConstant - deltaDistance;
    }

    /** The pivot and offset part of block 3, given the smoothed translation
        window tt. */
    method MoveRoot(tt: Vec3)
      modifies this`firstTranslationData, this`rootHipFirstPosition, this`pelvisFirstPosition, this`rootHipDelta,
               this`rootPosition
      ensures RootView() == Translated(cfg.translationScale, old(RootView()), tt)
    {
      if firstTranslationData {
        firstTranslationData := false;
        rootHipFirstPosition := tt;
        pelvisFirstPosition := rootPosition;
      }
      rootHipDelta := Sub(tt, rootHipFirstPosition);
      rootPosition := Vec3(pelvisFirstPosition.x + rootHipDelta.x * cfg.translationScale.x,
                           rootPosition.y,
                           pelvisFirstPosition.z + rootHipDelta.z * cfg.translationScale.z);
    }

    /** The depth part of block 3 on a full window, as Depth says: unless
        the proximity is shown by scaling, the first translation fixes the
        distance to the camera and the depth comes from
        calculateTranslationInZ; otherwise it is DEPTH_CONSTANT. */
    method TranslationDepth(cameraZ: real) returns (zT: real)
      requires Sound(ops) && (forall j :: j in joints) && CaptureInvariant(capture)
      modifies this`capture, this`bones, this`firstDistanceFromCamera
      ensures (TranslationView(), zT)
              == Depth(cfg, ops, old(TranslationView()), ReferenceBone(cfg.scaleBone, joints), cameraZ)
    {
      zT := DepthConstant;
      if !cfg.scaleOrTranslateInZAxis {
        if firstTranslationData {
          firstDistanceFromCamera := cameraZ - pelvisFirstPosition.z;
        }
        zT := CalculateTranslationInZ();
      }
    }

    /** The rest of block 3 on a full window, as Place says: the sample p
        goes into the driving joint's slot (slot K) of the translation window,
        the window is smoothed and the root moves. */
    method PlaceTranslation(p: Vec3)
      requires Fixed() && Driver(cfg) in joints && joints[Driver(cfg)].filter.lastIndex == K()
      requires |translationWindow| == K() + 1
      modifies this`firstTranslationData, this`rootHipFirstPosition, this`pelvisFirstPosition, this`rootHipDelta,
               this`rootPosition, this`translationSamples, this`translationWindow
      ensures TranslationView() == Place(cfg, ops, old(TranslationView()), p)
    {
      translationWindow := translationWindow[joints[Driver(cfg)].filter.lastIndex := p];
      var tt := SmoothVector(ops, cfg.hConst, translationWindow, K());
      MoveRoot(tt);
      translationSamples := translationSamples + [p];
    }

    /** Block 3 of Update on a full window, for the driving joint, as
        TranslationStep says: the image sample of t at the depth, placed and
        smoothed. */
    method TranslateRoot(t: TrackedJoint, cameraZ: real)
      requires Fixed() && (forall j :: j in joints) && joints[Driver(cfg)].filter.lastIndex == K()
      requires |translationWindow| == K() + 1 && CaptureInvariant(capture)
      modifies this`capture, this`bones, this`firstDistanceFromCamera, this`firstTranslationData,
               this`rootHipFirstPosition, this`pelvisFirstPosition, this`rootHipDelta, this`rootPosition,
               this`translationSamples, this`translationWindow
      ensures TranslationView()
              == TranslationStep(cfg, ops, old(TranslationView()), ReferenceBone(cfg.scaleBone, joints), t, cameraZ)
    {
      var xT := ImageX(t.imgH);
      var yT := ImageY(t.imgV);
      var zT := TranslationDepth(cameraZ);
      PlaceTranslation(Vec3(xT, yT, zT));
    }

    /** Blocks 1 and 2 of Update on joint j, in both branches: rotation
        filtering, then scale filtering for a joint of the reference bone,
        with bufferFilled telling whether the window was full. The samples
        written into j's windows are recorded. */
    method FilterJoint(j: JointType, t: TrackedJoint)
      requires Fixed() && j in joints && j in samples && Sized(cfg, j, joints[j])
      modifies this`joints, this`samples
      ensures joints == old(joints)[j := Blocks(cfg, ops, j, old(joints[j]), t)]
      ensures samples == old(samples)[j := Record(cfg.scaleBone, j, old(samples[j]), t)]
    {
      samples := samples[j := Record(cfg.scaleBone, j, samples[j], t)];
      var bufferFilled := joints[j].filter.lastIndex == K();
      FilterRotation(j, Position(t));
      if IsScaleJoint(cfg.scaleBone, j) {
        ghost var e1 := joints[j];
        ScaleFiltering(j, t, bufferFilled);
        Overwrite(old(joints), j, e1, joints[j]);
      }
    }

    /** The shift of joint j's rotation window at the end of the full
        branch. */
    method ShiftRotation(j: JointType)
      requires j in joints && |joints[j].windows.rotation| == K() + 1
      modifies this`joints
      ensures joints == old(joints)[j := ShiftBlock(old(joints[j]))]
    {
      var shifted := ShiftLeft(joints[j].windows.rotation, K());
      joints := joints[j := joints[j].(windows := joints[j].windows.(rotation := shifted))];
    }

    /** Blocks 1 to 3 of the full branch: the filtering of joint j, then the
        root translation when j is the driving joint. */
    method FilterAndTranslate(j: JointType, t: TrackedJoint, cameraZ: real)
      requires Fixed() && (forall j' :: j' in joints) && j in samples
      requires Sized(cfg, j, joints[j]) && joints[j].filter.lastIndex == K()
      requires |translationWindow| == K() + 1 && CaptureInvariant(capture)
      modifies this`joints, this`samples, this`capture, this`bones, this`firstDistanceFromCamera,
               this`firstTranslationData, this`rootHipFirstPosition, this`pelvisFirstPosition, this`rootHipDelta,
               this`rootPosition, this`translationSamples, this`translationWindow
      ensures joints == old(joints)[j := Blocks(cfg, ops, j, old(joints[j]), t)]
      ensures samples == old(samples)[j := Record(cfg.scaleBone, j, old(samples[j]), t)]
      ensures TranslationView() == if cfg.translationActive && j == Driver(cfg)
                                   then TranslationStep(cfg, ops, old(TranslationView()),
                                                        ReferenceBone(cfg.scaleBone, joints), t, cameraZ)
                                   else old(TranslationView())
    {
      FilterJoint(j, t);
      if cfg.translationActive && j == Driver(cfg) {
        TranslateRoot(t, cameraZ);
      }
    }

    /** The end of the full branch: the model's joint j is rotated towards
        the filtered positions, then j's rotation window is shifted (which
        leaves those positions alone). */
    method RotateAndShift(j: JointType)
      requires |boneDirection| == |Bones| && (forall j' :: j' in joints) && j in localRotation
      requires |joints[j].windows.rotation| == K() + 1
      modifies this`joints, this`localRotation
      ensures joints == old(joints)[j := ShiftBlock(old(joints[j]))]
      ensures localRotation == old(localRotation)[j := Compose(old(localRotation[j]),
                Aligns(Requests(j, cfg.transmissionOnHead), ModelPositions(old(joints)), boneDirection))]
    {
      RotateJoint(j);
      ShiftRotation(j);
    }

    /** The body of Update's loop for a tracked joint whose window is full, as
        FullStep says: rotation filtering, scale filtering for the reference
        bone, the root translation for the driving joint, the rotation of the
        model's joint and the shift of the rotation window. */
    method UpdateFull(j: JointType, t: TrackedJoint, cameraZ: real) returns (ghost filtered: map<JointType, JointRecord>)
      requires Fixed() && (forall j' :: j' in joints) && j in samples && j in localRotation
      requires Sized(cfg, j, joints[j]) && joints[j].filter.lastIndex == K()
      requires |translationWindow| == K() + 1 && CaptureInvariant(capture)
      modifies this`joints, this`samples, this`localRotation, this`capture, this`bones,
               this`firstDistanceFromCamera, this`firstTranslationData, this`rootHipFirstPosition,
               this`pelvisFirstPosition, this`rootHipDelta, this`rootPosition, this`translationSamples,
               this`translationWindow
      ensures filtered == old(joints)[j := Blocks(cfg, ops, j, old(joints[j]), t)]
      ensures joints == filtered[j := ShiftBlock(filtered[j])]
      ensures samples == old(samples)[j := Record(cfg.scaleBone, j, old(samples[j]), t)]
      ensures localRotation == old(localRotation)[j := Compose(old(localRotation[j]),
                Aligns(Requests(j, cfg.transmissionOnHead), ModelPositions(filtered), boneDirection))]
      ensures TranslationView() == if cfg.translationActive && j == Driver(cfg)
                                   then TranslationStep(cfg, ops, old(TranslationView()),
                                                        ReferenceBone(cfg.scaleBone, filtered), t, cameraZ)
                                   else old(TranslationView())
    {
      FilterAndTranslate(j, t, cameraZ);
      filtered := joints;
      RotateAndShift(j);
    }

    /** Block 3 of Update while the window fills, for the driving joint: the
        image sample of t, at the reference depth, goes into the translation
        window at the driving joint's fill index. */
    method BufferTranslation(t: TrackedJoint)
      requires Driver(cfg) in joints && joints[Driver(cfg)].filter.lastIndex < |translationWindow|
      modifies this`translationWindow, this`translationSamples
      ensures TranslationView()
              == Buffered(old(TranslationView()), joints[Driver(cfg)].filter.lastIndex, ImageSample(t))
    {
      var xT := ImageX(t.imgH);
      var yT := ImageY(t.imgV);
      var zT := DepthConstant;
      translationWindow := translationWindow[joints[Driver(cfg)].filter.lastIndex := Vec3(xT, yT, zT)];
      translationSamples := translationSamples + [Vec3(xT, yT, zT)];
    }

    /** The body of Update's loop for a tracked joint whose window is still
        filling, as FillingStep says: the sample goes into the rotation window
        (the double exponential filter starts on the way), the index moves on,
        and the image sample goes into the scale window of a reference-bone
        joint and into the driving joint's translation window. */
    method UpdateFilling(j: JointType, t: TrackedJoint)
      requires Fixed() && j in joints && j in samples && Sized(cfg, j, joints[j]) && joints[j].filter.lastIndex < K()
      requires |translationWindow| == K() + 1
      modifies this`joints, this`samples, this`translationSamples, this`translationWindow
      ensures joints == old(joints)[j := Blocks(cfg, ops, j, old(joints[j]), t)]
      ensures samples == old(samples)[j := Record(cfg.scaleBone, j, old(samples[j]), t)]
      ensures TranslationView() == if cfg.translationActive && j == Driver(cfg)
                                   then Buffered(old(TranslationView()), joints[j].filter.lastIndex, ImageSample(t))
                                   else old(TranslationView())
    {
      FilterJoint(j, t);
      if cfg.translationActive && j == Driver(cfg) {
        BufferTranslation(t);
      }
    }

    /** UpdateFull on the whole state, as FullStep says. */
    method UpdateFullStep(j: JointType, t: TrackedJoint, cameraZ: real)
      requires Fixed() && Ready(cfg, View()) && joints[j].filter.lastIndex == K()
      modifies this`joints, this`samples, this`localRotation, this`capture, this`bones,
               this`firstDistanceFromCamera, this`firstTranslationData, this`rootHipFirstPosition,
               this`pelvisFirstPosition, this`rootHipDelta, this`rootPosition, this`translationSamples,
               this`translationWindow
      ensures View() == FullStep(cfg, ops, boneDirection, old(View()), j, t, cameraZ)
    {
      ghost var filtered := UpdateFull(j, t, cameraZ);
      FullStepIs(cfg, ops, boneDirection, old(View()), j, t, cameraZ, filtered, joints, samples, localRotation,
                 TranslationView());
    }

    /** UpdateFilling on the whole state, as FillingStep says. */
    method UpdateFillingStep(j: JointType, t: TrackedJoint)
      requires Fixed() && Ready(cfg, View()) && joints[j].filter.lastIndex < K()
      modifies this`joints, this`samples, this`translationSamples, this`translationWindow
      ensures View() == FillingStep(cfg, ops, old(View()), j, t)
    {
      UpdateFilling(j, t);
      FillingStepIs(cfg, ops, old(View()), j, t, joints, samples, TranslationView());
    }

    /** One turn of Update's loop on joint j with its entry t of the
        snapshot, as Visit says. */
    method UpdateJoint(j: JointType, t: TrackedJoint, cameraZ: real)
      requires Fixed() && Ready(cfg, View())
      modifies this`joints, this`samples, this`localRotation, this`capture, this`bones,
               this`firstDistanceFromCamera, this`firstTranslationData, this`rootHipFirstPosition,
               this`pelvisFirstPosition, this`rootHipDelta, this`rootPosition, this`translationSamples,
               this`translationWindow
      ensures View() == Visit(cfg, ops, boneDirection, old(View()), j, t, cameraZ)
    {
      if t.tracked {
        if joints[j].filter.lastIndex == K() {
          UpdateFullStep(j, t, cameraZ);
        } else {
          UpdateFillingStep(j, t);
        }
      }
    }

    /** Update: nothing before the first accepted frame; then every joint in
        JointOrder, as VisitFrame says. The invariant is kept and each
        tracked joint records exactly one sample. */
    method Update(cameraZ: real)
      requires Valid() && SnapshotOk()
      modifies this`joints, this`samples, this`localRotation, this`capture, this`bones,
               this`firstDistanceFromCamera, this`firstTranslationData, this`rootHipFirstPosition,
               this`pelvisFirstPosition, this`rootHipDelta, this`rootPosition, this`translationSamples,
               this`translationWindow
      ensures Valid()
      ensures Head !in old(typesToJoints) ==> View() == old(View())
      ensures Head in old(typesToJoints) ==>
                && View() == VisitFrame(cfg, ops, boneDirection, old(View()), old(typesToJoints), cameraZ, |JointOrder|)
                && samples == RecordFrame(cfg.scaleBone, old(samples), old(typesToJoints), |JointOrder|)
    {
      if Head !in typesToJoints {
        return;
      }
      ghost var s0 := View();
      VisitJoints(typesToJoints, cameraZ);
      VisitFrameOk(cfg, ops, boneDirection, s0, typesToJoints, cameraZ, |JointOrder|);
    }

    /** The loop of Update: every joint in JointOrder with its entry of the
        frame, one after the other, as VisitFrame says. */
    method VisitJoints(frame: map<JointType, TrackedJoint>, cameraZ: real)
      requires Fixed() && Ready(cfg, View()) && forall j :: j in frame
      modifies this`joints, this`samples, this`localRotation, this`capture, this`bones,
               this`firstDistanceFromCamera, this`firstTranslationData, this`rootHipFirstPosition,
               this`pelvisFirstPosition, this`rootHipDelta, this`rootPosition, this`translationSamples,
               this`translationWindow
      ensures View() == VisitFrame(cfg, ops, boneDirection, old(View()), frame, cameraZ, |JointOrder|)
    {
      var n := 0;
      while n < |JointOrder|
        invariant 0 <= n <= |JointOrder|
        invariant View() == VisitFrame(cfg, ops, boneDirection, old(View()), frame, cameraZ, n)
      {
        var j := JointOrder[n];
        UpdateJoint(j, frame[j], cameraZ);
        n := n + 1;
      }
    }
  }
}
