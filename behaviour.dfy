/** Update's work as a function on values: the state the JointsUpdate
    behaviour keeps between frames, the invariant that ties it to the
    history of tracked samples, and what visiting one joint and one whole
    frame does to it. The class JointsUpdate is proved to follow these
    functions step by step. */
module Behaviour {
  import opened Geometry
  import opened Skeleton
  import opened WeightedAverage
  import opened SlidingWindow
  import opened Proximity
  import opened RootTranslation
  import opened Retarget
  import opened JointFilters

  /** typeT: the joint whose image position drives the root. */
  function Driver(cfg: Config): JointType {
    TranslationJoint(cfg.translationReference)
  }

  /** jointPosition of every joint: the filtered positions RotateJoint aims at. */
  function ModelPositions(joints: map<JointType, JointRecord>): (pos: map<JointType, Vec3>)
    ensures forall j :: j in pos <==> j in joints
    ensures forall j :: j in pos ==> pos[j] == joints[j].filter.modelFiltered
  {
    map j | j in joints :: joints[j].filter.modelFiltered
  }

  /** The bone calculateScaleFiltered measures: the filtered image position
      of its first joint minus that of its second. */
  function ReferenceBone(bone: ScaleBone, joints: map<JointType, JointRecord>): Vec3
    requires ScalePair(bone).0 in joints && ScalePair(bone).1 in joints
  {
    Sub(joints[ScalePair(bone).0].filter.textureFiltered, joints[ScalePair(bone).1].filter.textureFiltered)
  }

  /** Writing the same key twice keeps only the second write. */
  lemma Overwrite<K, V>(m: map<K, V>, k: K, a: V, b: V)
    ensures m[k := a][k := b] == m[k := b]
  {
  }

  /** Shifting joint j's rotation window changes neither the positions
      RotateJoint aims at nor the bone calculateScaleFiltered measures. */
  lemma ShiftKeepsFiltered(bone: ScaleBone, m: map<JointType, JointRecord>, j: JointType)
    requires j in m && |m[j].windows.rotation| >= 1
    ensures ModelPositions(m[j := ShiftBlock(m[j])]) == ModelPositions(m)
    ensures ScalePair(bone).0 in m && ScalePair(bone).1 in m ==>
              ReferenceBone(bone, m[j := ShiftBlock(m[j])]) == ReferenceBone(bone, m)
  {
    var m' := m[j := ShiftBlock(m[j])];
    assert forall j' :: j' in m' ==> j' in m && m'[j'].filter == m[j'].filter;
    var p, q := ModelPositions(m'), ModelPositions(m);
    assert forall j' :: j' in p ==> p[j'] == q[j'];
  }

  /** The state of block 3 (proximity and root translation): the driving
      joint's translation window (textureJointsPositionBufferT[typeT]) and
      the samples written into it, the capture state and the bones it has
      measured, the root, and firstDistanceFromCamera. The samples and the
      bones are the history the invariant speaks about; the code does not
      keep them. */
  datatype Translation = Translation(window: seq<Vec3>, history: seq<Vec3>, capture: Capture, bones: seq<Vec3>,
                                     root: Root, firstDistance: real)

  /** What the behaviour keeps between frames: a record per joint (filter
      entries and windows), the samples each joint has recorded, the local
      rotation of each of the model's joints, and the state of block 3. */
  datatype State = State(joints: map<JointType, JointRecord>, samples: map<JointType, Samples>,
                         rotations: map<JointType, Rotation>, translation: Translation)

  /** What Update's code relies on to run without a failed lookup or an
      index out of range: every joint has its entries and the shape Sized
      says, the driving joint's translation window holds K+1 samples, and
      the capture state is one calculateScaleFiltered can divide by. */
  ghost predicate Ready(cfg: Config, s: State) {
    && (forall j :: j in s.joints && j in s.samples && j in s.rotations)
    && (forall j :: Sized(cfg, j, s.joints[j]))
    && |s.translation.window| == cfg.windowSizeK + 1
    && CaptureInvariant(s.translation.capture)
  }

  /** The invariant of block 3, given the driving joint's fill index idx:
      the capture state is the run of the bones measured; the pelvis
      baseline is still zero while the translation is not calibrated; and,
      when translation is active, the window and the root match the
      translation samples. */
  ghost predicate TranslationOk(cfg: Config, ops: FloatOps, tr: Translation, idx: nat)
    requires ValidConfig(cfg) && Sound(ops)
  {
    && tr.capture == Run(Start, tr.bones)
    && (tr.root.first ==> tr.root.pelvisFirst == Zero)
    && if cfg.translationActive then
         TranslationState(ops, cfg.hConst, cfg.translationScale, cfg.windowSizeK, tr.window, idx, tr.history, tr.root)
       else tr.root.first && tr.history == []
  }

  /** The class invariant on values: the state is ready, every joint's
      record matches its samples, and block 3's state is as TranslationOk
      says. */
  ghost predicate StateOk(cfg: Config, ops: FloatOps, s: State)
    requires ValidConfig(cfg) && Sound(ops)
  {
    && Ready(cfg, s)
    && JointsOk(cfg, ops, s.joints, s.samples)
    && TranslationOk(cfg, ops, s.translation, s.joints[Driver(cfg)].filter.lastIndex)
  }

  /** K+1 zero samples. */
  function Zeros(k: nat): (w: seq<Vec3>)
    ensures |w| == k + 1 && forall i :: 0 <= i < |w| ==> w[i] == Zero
  {
    seq(k + 1, _ => Zero)
  }

  /** The record Start gives joint j: zero windows (a scale window only for
      the six joints that have one) and unfiltered entries. */
  function InitialRecord(k: nat, j: JointType): JointRecord {
    JointRecord(Unfiltered, JointWindows(Zeros(k), if j in ScaleBufferJoints then Zeros(k) else []))
  }

  /** The state Start leaves: every joint's initial record, no samples, the
      bind pose, a zero translation window, capture and translation armed,
      the root where the scene put it. */
  function InitialState(cfg: Config, root: Vec3): (s: State)
    requires ValidConfig(cfg)
    ensures Ready(cfg, s)
  {
    State(InitialJoints(cfg), Everywhere(NoSamples), BindPose(),
          Translation(Zeros(cfg.windowSizeK), [], Start, [], Root(true, Zero, Zero, Zero, root), 0.0))
  }

  /** Every joint's initial record, each sized as Update needs it: the
      joints of every reference bone a valid configuration allows have a
      scale window. */
  function InitialJoints(cfg: Config): (m: map<JointType, JointRecord>)
    requires ValidConfig(cfg)
    ensures forall j :: j in m && m[j] == InitialRecord(cfg.windowSizeK, j) && Sized(cfg, j, m[j])
  {
    ScaleFilteringDefinedFor(cfg.scaleBone);
    JointOrderIsPermutation();
    map j | j in AllJoints :: InitialRecord(cfg.windowSizeK, j)
  }

  /** The state Start leaves satisfies the invariant. */
  lemma InitialStateOk(cfg: Config, ops: FloatOps, root: Vec3)
    requires ValidConfig(cfg) && Sound(ops)
    ensures StateOk(cfg, ops, InitialState(cfg, root))
  {
    var s := InitialState(cfg, root);
    forall j ensures JointState(cfg, ops, j, s.joints[j].windows, s.joints[j].filter, s.samples[j]) {
      InitialJointState(cfg, ops, j, s.joints[j].windows);
    }
    assert s.translation.window[0] == Zero;
  }

  /** Block 3 while the window fills: the image sample p goes into the
      translation window at slot idx. */
  function Buffered(tr: Translation, idx: nat, p: Vec3): (tr': Translation)
    requires idx < |tr.window|
    ensures |tr'.window| == |tr.window| && tr'.capture == tr.capture
  {
    tr.(window := tr.window[idx := p], history := tr.history + [p])
  }

  /** The depth part of block 3 on a full window: unless the proximity is
      shown by scaling, the distance to the camera is taken from the pelvis
      baseline on the first translation, and the depth comes from the bone's
      change of size (measuring the bone moves the capture on); otherwise
      the depth is DEPTH_CONSTANT. */
  function Depth(cfg: Config, ops: FloatOps, tr: Translation, bone: Vec3, cameraZ: real): (r: (Translation, real))
    requires Sound(ops) && CaptureInvariant(tr.capture)
    ensures CaptureInvariant(r.0.capture)
    ensures r.0.window == tr.window && r.0.history == tr.history && r.0.root == tr.root
    ensures cfg.scaleOrTranslateInZAxis ==> r == (tr, DepthConstant)
  {
    if cfg.scaleOrTranslateInZAxis then (tr, DepthConstant)
    else
      var distance := if tr.root.first then cameraZ - tr.root.pelvisFirst.z else tr.firstDistance;
      (tr.(capture := CaptureStep(tr.capture, bone), bones := tr.bones + [bone], firstDistance := distance),
       TranslationInZ(ops, distance, Coefficient(ops, tr.capture, bone)))
  }

  /** The rest of block 3 on a full window: the sample p goes into slot K of
      the translation window, the window is smoothed, and the root moves as
      Translated says. */
  function Place(cfg: Config, ops: FloatOps, tr: Translation, p: Vec3): (tr': Translation)
    requires ValidConfig(cfg) && Sound(ops) && |tr.window| == cfg.windowSizeK + 1
    ensures |tr'.window| == |tr.window| && tr'.capture == tr.capture
  {
    var w := tr.window[cfg.windowSizeK := p];
    tr.(window := w, history := tr.history + [p],
        root := Translated(cfg.translationScale, tr.root, WindowAverage(ops, cfg.hConst, w)))
  }

  /** Block 3 on a full window for the driving joint t, given the bone the
      reference joints span: the depth, then the image sample at that depth
      placed and smoothed. */
  function TranslationStep(cfg: Config, ops: FloatOps, tr: Translation, bone: Vec3, t: TrackedJoint, cameraZ: real)
    : (tr': Translation)
    requires ValidConfig(cfg) && Sound(ops) && |tr.window| == cfg.windowSizeK + 1 && CaptureInvariant(tr.capture)
    ensures |tr'.window| == |tr.window| && CaptureInvariant(tr'.capture)
  {
    var r := Depth(cfg, ops, tr, bone, cameraZ);
    Place(cfg, ops, r.0, ImagePoint(t.imgH, t.imgV, r.1))
  }

  /** The joint records after joint j's turn: j's record is stepped as
      Stepped says, every record keeps its sizes and the other joints'
      records are left alone. */
  function StepJoints(cfg: Config, ops: FloatOps, joints: map<JointType, JointRecord>, j: JointType, t: TrackedJoint)
    : (joints': map<JointType, JointRecord>)
    requires ValidConfig(cfg) && Sound(ops) && (forall j' :: j' in joints) && (forall j' :: Sized(cfg, j', joints[j']))
    ensures forall j' :: j' in joints' && Sized(cfg, j', joints'[j'])
    ensures forall j' :: j' != j ==> joints'[j'] == joints[j']
  {
    joints[j := Stepped(cfg, ops, j, joints[j], t)]
  }

  /** Update's work on tracked joint j whose window is still filling:
      blocks 1 and 2 step j's record as Stepped says, its samples are
      recorded, and, for the driving joint, the image sample goes into the
      translation window at the index block 1 moved on to. */
  function FillingStep(cfg: Config, ops: FloatOps, s: State, j: JointType, t: TrackedJoint): (s': State)
    requires ValidConfig(cfg) && Sound(ops) && Ready(cfg, s) && s.joints[j].filter.lastIndex < cfg.windowSizeK
    ensures Ready(cfg, s')
  {
    var e := Stepped(cfg, ops, j, s.joints[j], t);
    State(StepJoints(cfg, ops, s.joints, j, t), s.samples[j := Record(cfg.scaleBone, j, s.samples[j], t)], s.rotations,
          if cfg.translationActive && j == Driver(cfg) then Buffered(s.translation, e.filter.lastIndex, ImageSample(t))
          else s.translation)
  }

  /** Update's work on tracked joint j whose window is full: blocks 1 and 2
      and the shift step j's record as Stepped says, its samples are
      recorded, block 3 runs for the driving joint on the bone the new
      filtered positions span, and the model's joint j is rotated towards
      the new filtered positions (the shift leaves them alone). */
  function FullStep(cfg: Config, ops: FloatOps, boneDirection: seq<Vec3>, s: State, j: JointType, t: TrackedJoint,
                    cameraZ: real): (s': State)
    requires ValidConfig(cfg) && Sound(ops) && Ready(cfg, s) && |boneDirection| == |Bones|
    ensures Ready(cfg, s')
  {
    var joints := StepJoints(cfg, ops, s.joints, j, t);
    var steps := Aligns(Requests(j, cfg.transmissionOnHead), ModelPositions(joints), boneDirection);
    State(joints, s.samples[j := Record(cfg.scaleBone, j, s.samples[j], t)],
          s.rotations[j := Compose(s.rotations[j], steps)],
          if cfg.translationActive && j == Driver(cfg)
          then TranslationStep(cfg, ops, s.translation, ReferenceBone(cfg.scaleBone, joints), t, cameraZ)
          else s.translation)
  }

  /** FillingStep field by field: the joints, samples and translation the
      filling branch makes of each make up the state FillingStep gives. */
  lemma FillingStepIs(cfg: Config, ops: FloatOps, s: State, j: JointType, t: TrackedJoint,
                      joints: map<JointType, JointRecord>, samples: map<JointType, Samples>, translation: Translation)
    requires ValidConfig(cfg) && Sound(ops) && Ready(cfg, s) && s.joints[j].filter.lastIndex < cfg.windowSizeK
    requires joints == s.joints[j := Blocks(cfg, ops, j, s.joints[j], t)]
    requires samples == s.samples[j := Record(cfg.scaleBone, j, s.samples[j], t)]
    requires translation == if cfg.translationActive && j == Driver(cfg)
                            then Buffered(s.translation, joints[j].filter.lastIndex, ImageSample(t))
                            else s.translation
    ensures FillingStep(cfg, ops, s, j, t) == State(joints, samples, s.rotations, translation)
  {
  }

  /** FullStep field by field: joint j's record goes through the blocks
      (giving filtered) and then the shift; the rotation aims at, and block
      3 measures, the filtered positions, which the shift leaves alone. */
  lemma FullStepIs(cfg: Config, ops: FloatOps, boneDirection: seq<Vec3>, s: State, j: JointType, t: TrackedJoint,
                   cameraZ: real, filtered: map<JointType, JointRecord>, joints: map<JointType, JointRecord>,
                   samples: map<JointType, Samples>, rotations: map<JointType, Rotation>, translation: Translation)
    requires ValidConfig(cfg) && Sound(ops) && Ready(cfg, s) && |boneDirection| == |Bones|
    requires s.joints[j].filter.lastIndex == cfg.windowSizeK
    requires filtered == s.joints[j := Blocks(cfg, ops, j, s.joints[j], t)]
    requires joints == filtered[j := ShiftBlock(filtered[j])]
    requires samples == s.samples[j := Record(cfg.scaleBone, j, s.samples[j], t)]
    requires rotations == s.rotations[j := Compose(s.rotations[j],
               Aligns(Requests(j, cfg.transmissionOnHead), ModelPositions(filtered), boneDirection))]
    requires translation == if cfg.translationActive && j == Driver(cfg)
                            then TranslationStep(cfg, ops, s.translation, ReferenceBone(cfg.scaleBone, filtered), t,
                                                 cameraZ)
                            else s.translation
    ensures FullStep(cfg, ops, boneDirection, s, j, t, cameraZ) == State(joints, samples, rotations, translation)
  {
    ShiftKeepsFiltered(cfg.scaleBone, filtered, j);
    Overwrite(s.joints, j, filtered[j], ShiftBlock(filtered[j]));
  }

  /** One turn of Update's loop: a tracked joint goes through the branch its
      fill index selects, an untracked one is skipped. */
  function Visit(cfg: Config, ops: FloatOps, boneDirection: seq<Vec3>, s: State, j: JointType, t: TrackedJoint,
                 cameraZ: real): (s': State)
    requires ValidConfig(cfg) && Sound(ops) && Ready(cfg, s) && |boneDirection| == |Bones|
    ensures Ready(cfg, s')
    ensures s'.samples == if t.tracked then s.samples[j := Record(cfg.scaleBone, j, s.samples[j], t)] else s.samples
  {
    if !t.tracked then s
    else if s.joints[j].filter.lastIndex == cfg.windowSizeK then FullStep(cfg, ops, boneDirection, s, j, t, cameraZ)
    else FillingStep(cfg, ops, s, j, t)
  }

  /** The histories after Update has visited the first n joints of
      JointOrder: each tracked one has recorded its sample. */
  ghost function RecordFrame(bone: ScaleBone, s: map<JointType, Samples>, frame: map<JointType, TrackedJoint>, n: nat)
    : (s': map<JointType, Samples>)
    requires n <= |JointOrder| && forall j :: j in s && j in frame
    ensures forall j :: j in s'
  {
    if n == 0 then s
    else
      var prev := RecordFrame(bone, s, frame, n - 1);
      var j := JointOrder[n - 1];
      if frame[j].tracked then prev[j := Record(bone, j, prev[j], frame[j])] else prev
  }

  /** The state after Update's loop has visited the first n joints of
      JointOrder with the joints of frame. */
  function VisitFrame(cfg: Config, ops: FloatOps, boneDirection: seq<Vec3>, s: State,
                      frame: map<JointType, TrackedJoint>, cameraZ: real, n: nat): (s': State)
    requires ValidConfig(cfg) && Sound(ops) && Ready(cfg, s) && |boneDirection| == |Bones|
    requires n <= |JointOrder| && forall j :: j in frame
    ensures Ready(cfg, s')
    ensures s'.samples == RecordFrame(cfg.scaleBone, s.samples, frame, n)
  {
    if n == 0 then s
    else
      var j := JointOrder[n - 1];
      Visit(cfg, ops, boneDirection, VisitFrame(cfg, ops, boneDirection, s, frame, cameraZ, n - 1), j, frame[j], cameraZ)
  }

  /** Block 3 while the window fills keeps its invariant. */
  lemma BufferedOk(cfg: Config, ops: FloatOps, tr: Translation, idx: nat, t: TrackedJoint)
    requires ValidConfig(cfg) && Sound(ops) && cfg.translationActive && TranslationOk(cfg, ops, tr, idx)
    requires idx < cfg.windowSizeK && |tr.window| == cfg.windowSizeK + 1
    ensures TranslationOk(cfg, ops, Buffered(tr, idx + 1, ImageSample(t)), idx + 1)
  {
    TranslateFilling(ops, cfg.hConst, cfg.translationScale, cfg.windowSizeK, tr.window, idx, tr.history, tr.root,
                     ImageSample(t));
  }

  /** Block 3 on a full window keeps its invariant: the capture takes one
      more bone and the translation state one more sample. */
  lemma TranslationStepOk(cfg: Config, ops: FloatOps, tr: Translation, bone: Vec3, t: TrackedJoint, cameraZ: real)
    requires ValidConfig(cfg) && Sound(ops) && cfg.translationActive && TranslationOk(cfg, ops, tr, cfg.windowSizeK)
    requires |tr.window| == cfg.windowSizeK + 1 && CaptureInvariant(tr.capture)
    ensures TranslationOk(cfg, ops, TranslationStep(cfg, ops, tr, bone, t, cameraZ), cfg.windowSizeK)
  {
    var r := Depth(cfg, ops, tr, bone, cameraZ);
    if !cfg.scaleOrTranslateInZAxis {
      RunAppend(Start, tr.bones, bone);
    }
    TranslateFull(ops, cfg.hConst, cfg.translationScale, cfg.windowSizeK, tr.window, tr.history, tr.root,
                  ImagePoint(t.imgH, t.imgV, r.1));
  }

  /** On a filling window, block 3's invariant follows the driving joint's
      new fill index. */
  lemma FillingTranslationOk(cfg: Config, ops: FloatOps, s: State, j: JointType, t: TrackedJoint)
    requires ValidConfig(cfg) && Sound(ops) && Ready(cfg, s) && s.joints[j].filter.lastIndex < cfg.windowSizeK
    requires TranslationOk(cfg, ops, s.translation, s.joints[Driver(cfg)].filter.lastIndex)
    ensures var s' := FillingStep(cfg, ops, s, j, t);
            TranslationOk(cfg, ops, s'.translation, s'.joints[Driver(cfg)].filter.lastIndex)
  {
    var d := Driver(cfg);
    if cfg.translationActive && j == d {
      BufferedOk(cfg, ops, s.translation, s.joints[j].filter.lastIndex, t);
    } else if j != d {
      assert FillingStep(cfg, ops, s, j, t).joints[d] == s.joints[d];
    }
  }

  /** A tracked joint on a filling window keeps the invariant. */
  lemma FillingStepOk(cfg: Config, ops: FloatOps, s: State, j: JointType, t: TrackedJoint)
    requires ValidConfig(cfg) && Sound(ops) && Ready(cfg, s) && s.joints[j].filter.lastIndex < cfg.windowSizeK
    ensures StateOk(cfg, ops, s) ==> StateOk(cfg, ops, FillingStep(cfg, ops, s, j, t))
  {
    if StateOk(cfg, ops, s) {
      JointsOkStep(cfg, ops, s.joints, s.samples, j, t);
      FillingTranslationOk(cfg, ops, s, j, t);
    }
  }

  /** On a full window, block 3 keeps its invariant; the driving joint's
      fill index stays at K. */
  lemma FullTranslationOk(cfg: Config, ops: FloatOps, boneDirection: seq<Vec3>, s: State, j: JointType,
                          t: TrackedJoint, cameraZ: real)
    requires ValidConfig(cfg) && Sound(ops) && Ready(cfg, s) && |boneDirection| == |Bones|
    requires s.joints[j].filter.lastIndex == cfg.windowSizeK
    requires TranslationOk(cfg, ops, s.translation, s.joints[Driver(cfg)].filter.lastIndex)
    ensures var s' := FullStep(cfg, ops, boneDirection, s, j, t, cameraZ);
            TranslationOk(cfg, ops, s'.translation, s'.joints[Driver(cfg)].filter.lastIndex)
  {
    var s' := FullStep(cfg, ops, boneDirection, s, j, t, cameraZ);
    var d := Driver(cfg);
    if cfg.translationActive && j == d {
      TranslationStepOk(cfg, ops, s.translation, ReferenceBone(cfg.scaleBone, s'.joints), t, cameraZ);
    } else if j != d {
      assert s'.joints[d] == s.joints[d];
    }
  }

  /** A tracked joint on a full window keeps the invariant. */
  lemma FullStepOk(cfg: Config, ops: FloatOps, boneDirection: seq<Vec3>, s: State, j: JointType, t: TrackedJoint,
                   cameraZ: real)
    requires ValidConfig(cfg) && Sound(ops) && Ready(cfg, s) && |boneDirection| == |Bones|
    requires s.joints[j].filter.lastIndex == cfg.windowSizeK
    ensures StateOk(cfg, ops, s) ==> StateOk(cfg, ops, FullStep(cfg, ops, boneDirection, s, j, t, cameraZ))
  {
    if StateOk(cfg, ops, s) {
      JointsOkStep(cfg, ops, s.joints, s.samples, j, t);
      FullTranslationOk(cfg, ops, boneDirection, s, j, t, cameraZ);
    }
  }

  /** Every turn of Update's loop keeps the invariant. */
  lemma VisitOk(cfg: Config, ops: FloatOps, boneDirection: seq<Vec3>, s: State, j: JointType, t: TrackedJoint,
                cameraZ: real)
    requires ValidConfig(cfg) && Sound(ops) && |boneDirection| == |Bones|
    ensures StateOk(cfg, ops, s) ==> StateOk(cfg, ops, Visit(cfg, ops, boneDirection, s, j, t, cameraZ))
  {
    if t.tracked && Ready(cfg, s) {
      if s.joints[j].filter.lastIndex == cfg.windowSizeK {
        FullStepOk(cfg, ops, boneDirection, s, j, t, cameraZ);
      } else {
        FillingStepOk(cfg, ops, s, j, t);
      }
    }
  }

  /** A whole frame keeps the invariant. */
  lemma {:induction false} VisitFrameOk(cfg: Config, ops: FloatOps, boneDirection: seq<Vec3>, s: State,
                                        frame: map<JointType, TrackedJoint>, cameraZ: real, n: nat)
    requires ValidConfig(cfg) && Sound(ops) && Ready(cfg, s) && |boneDirection| == |Bones|
    requires n <= |JointOrder| && forall j :: j in frame
    ensures StateOk(cfg, ops, s) ==> StateOk(cfg, ops, VisitFrame(cfg, ops, boneDirection, s, frame, cameraZ, n))
  {
    if n > 0 {
      VisitFrameOk(cfg, ops, boneDirection, s, frame, cameraZ, n - 1);
      VisitFrameStepOk(cfg, ops, boneDirection, s, frame, cameraZ, n);
    }
  }

  /** The n-th turn of the loop keeps the invariant. */
  lemma VisitFrameStepOk(cfg: Config, ops: FloatOps, boneDirection: seq<Vec3>, s: State,
                         frame: map<JointType, TrackedJoint>, cameraZ: real, n: nat)
    requires ValidConfig(cfg) && Sound(ops) && Ready(cfg, s) && |boneDirection| == |Bones|
    requires 0 < n <= |JointOrder| && forall j :: j in frame
    ensures StateOk(cfg, ops, VisitFrame(cfg, ops, boneDirection, s, frame, cameraZ, n - 1)) ==>
              StateOk(cfg, ops, VisitFrame(cfg, ops, boneDirection, s, frame, cameraZ, n))
  {
    var j := JointOrder[n - 1];
    VisitOk(cfg, ops, boneDirection, VisitFrame(cfg, ops, boneDirection, s, frame, cameraZ, n - 1), j, frame[j], cameraZ);
  }

  /** A joint's history changes only when Update visits it. */
  lemma {:induction false} RecordFrameUpTo(bone: ScaleBone, s: map<JointType, Samples>, frame: map<JointType, TrackedJoint>,
                                          n: nat, j: JointType)
    requires n <= |JointOrder| && forall j :: j in s && j in frame
    ensures RecordFrame(bone, s, frame, n)[j]
            == if OrderIndex(j) < n && frame[j].tracked then Record(bone, j, s[j], frame[j]) else s[j]
  {
    if n > 0 {
      RecordFrameUpTo(bone, s, frame, n - 1, j);
      JointOrderIsPermutation();
    }
  }

  /** Over a whole frame every tracked joint records exactly one sample and
      every other joint none. */
  lemma RecordFrameOnce(bone: ScaleBone, s: map<JointType, Samples>, frame: map<JointType, TrackedJoint>, j: JointType)
    requires forall j :: j in s && j in frame
    ensures var s' := RecordFrame(bone, s, frame, |JointOrder|);
            && (frame[j].tracked ==> s'[j].rotation == s[j].rotation + [Position(frame[j])])
            && (!frame[j].tracked ==> s'[j] == s[j])
  {
    RecordFrameUpTo(bone, s, frame, |JointOrder|, j);
  }
}
