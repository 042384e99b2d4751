/** The fixed joint enumeration, the traversal order of Update, and the
    configuration options of the JointsUpdate behaviour. */
module Skeleton {
  import opened Geometry

  /** The ten tracked joints. */
  datatype JointType =
    | HipCenter | Spine | ShoulderCenter | Head
    | ShoulderLeft | ElbowLeft | HandLeft
    | ShoulderRight | ElbowRight | HandRight

  const AllJoints: set<JointType> :=
    {HipCenter, Spine, ShoulderCenter, Head, ShoulderLeft, ElbowLeft, HandLeft, ShoulderRight, ElbowRight, HandRight}

  /** jointTypesArray: the order in which Update visits the joints, roughly
      root to leaves. */
  const JointOrder: seq<JointType> :=
    [HipCenter, Spine, ShoulderCenter, Head, ShoulderLeft, ElbowLeft, HandLeft, ShoulderRight, ElbowRight, HandRight]

  /** indexOfJointType: the position of a joint in JointOrder. */
  function OrderIndex(j: JointType): (i: nat)
    ensures i < |JointOrder| && JointOrder[i] == j
  {
    match j
    case HipCenter => 0
    case Spine => 1
    case ShoulderCenter => 2
    case Head => 3
    case ShoulderLeft => 4
    case ElbowLeft => 5
    case HandLeft => 6
    case ShoulderRight => 7
    case ElbowRight => 8
    case HandRight => 9
  }

  /** JointOrder lists every joint exactly once. */
  lemma JointOrderIsPermutation()
    ensures |JointOrder| == |AllJoints| == 10
    ensures forall i :: 0 <= i < |JointOrder| ==> OrderIndex(JointOrder[i]) == i
    ensures forall j :: j in AllJoints
  {
    assert forall j :: j in AllJoints by {
      forall j ensures j in AllJoints {
        match j
        case HipCenter => case Spine => case ShoulderCenter => case Head =>
        case ShoulderLeft => case ElbowLeft => case HandLeft =>
        case ShoulderRight => case ElbowRight => case HandRight =>
      }
    }
  }

  /** A dictionary holding v for every joint. */
  function Everywhere<V>(v: V): (m: map<JointType, V>)
    ensures forall j :: j in m && m[j] == v
  {
    JointOrderIsPermutation();
    map j | j in AllJoints :: v
  }

  /** A dictionary holding v for exactly the joints in keys. */
  function Constant<V>(keys: set<JointType>, v: V): (m: map<JointType, V>)
    ensures forall j :: j in m <==> j in keys
    ensures forall j :: j in m ==> m[j] == v
  {
    map j | j in keys :: v
  }

  datatype FilterKind = ExponentiallyWeightedMovingAverage | DoubleExponentialSmoothingFilter

  /** scaleType: the reference bone for proximity estimation. */
  datatype ScaleBone = WristElbow | Torso | SpineShoulder | HeadSpine

  /** XYtranslationEstimationType: the joint whose image position drives the root. */
  datatype TranslationReference = AccordingToSpine | AccordingToHips

  /** The inspector-visible options of the behaviour. */
  datatype Config = Config(
    windowSizeK: nat,
    filter: FilterKind,
    hConst: real,
    alphaDE: real,
    gammaDE: real,
    translationActive: bool,
    translationReference: TranslationReference,
    translationScale: Vec3,
    scaleBone: ScaleBone,
    scaleOrTranslateInZAxis: bool,
    transmissionOnHead: bool)

  /** Joints whose scale window (textureJointsPositionBufferS) exists. */
  const ScaleBufferJoints: set<JointType> := {Spine, HipCenter, HandLeft, ElbowLeft, ShoulderLeft, Head}

  /** Joints whose filtered image position (textureJointsFiltered) exists. */
  const TextureFilteredJoints: set<JointType> := {HandRight, ElbowRight, Spine, HipCenter, ShoulderRight, Head}

  /** Joints whose translation window (textureJointsPositionBufferT) exists. */
  const TranslationBufferJoints: set<JointType> := {Spine, HipCenter}

  /** The switch in Update that decides whether scaleFiltering runs for a joint. */
  predicate IsScaleJoint(bone: ScaleBone, j: JointType) {
    match bone
    case WristElbow => j == HandRight || j == ElbowRight
    case Torso => j == Spine || j == HipCenter
    case SpineShoulder => j == Spine || j == ShoulderRight
    case HeadSpine => j == Spine || j == Head
  }

  /** The (firstJoint, secondJoint) pair calculateScaleFiltered subtracts. */
  function ScalePair(bone: ScaleBone): (p: (JointType, JointType))
    ensures IsScaleJoint(bone, p.0) && IsScaleJoint(bone, p.1) && p.0 != p.1
    ensures p.0 in TextureFilteredJoints && p.1 in TextureFilteredJoints
  {
    match bone
    case WristElbow => (HandRight, ElbowRight)
    case Torso => (Spine, HipCenter)
    case SpineShoulder => (Spine, ShoulderRight)
    case HeadSpine => (Head, Spine)
  }

  /** The joint typeT whose image position drives the root. */
  function TranslationJoint(r: TranslationReference): (j: JointType)
    ensures j in TranslationBufferJoints
  {
    match r
    case AccordingToSpine => Spine
    case AccordingToHips => HipCenter
  }

  /** The dictionary lookups of scaleFiltering succeed for both joints of the
      reference bone exactly for the Torso and HeadSpine choices; the other two
      name a joint that has no scale window. */
  lemma ScaleFilteringDefinedFor(bone: ScaleBone)
    ensures (forall j :: IsScaleJoint(bone, j) ==> j in ScaleBufferJoints && j in TextureFilteredJoints)
            <==> (bone == Torso || bone == HeadSpine)
  {
    match bone
    case WristElbow => assert IsScaleJoint(bone, HandRight) && HandRight !in ScaleBufferJoints;
    case SpineShoulder => assert IsScaleJoint(bone, ShoulderRight) && ShoulderRight !in ScaleBufferJoints;
    case Torso =>
    case HeadSpine =>
  }

  /** The configurations the behaviour can run without a failed lookup. */
  predicate ValidConfig(c: Config) {
    c.windowSizeK >= 1 && (c.scaleBone == Torso || c.scaleBone == HeadSpine)
  }
}
