/** Retargeting of the tracked skeleton onto the model (skeletonInit,
    RotateJoint, RotateJointWithAngle). Quaternion arithmetic is engine code
    and stays symbolic: a rotation is recorded as the bind-pose rotation
    followed by the list of FromToRotation(direction, target) factors
    multiplied onto it, in order. */
module Retarget {
  import opened Geometry
  import opened Skeleton

  /** A bone, from its parent joint to its child joint. */
  datatype Bone = Bone(parent: JointType, child: JointType)

  /** The nine bones in the order skeletonInit fills boneDirection: entry i
      is the bind-pose vector child - parent of Bones[i]. */
  const Bones: seq<Bone> := [
    Bone(HipCenter, Spine),
    Bone(Spine, ShoulderCenter),
    Bone(ShoulderCenter, Head),
    Bone(ShoulderCenter, ShoulderLeft),
    Bone(ShoulderCenter, ShoulderRight),
    Bone(ShoulderLeft, ElbowLeft),
    Bone(ShoulderRight, ElbowRight),
    Bone(ElbowLeft, HandLeft),
    Bone(ElbowRight, HandRight)
  ]

  /** boneDirection for a model whose joints sit at bindPosition. */
  function BoneDirections(bindPosition: JointType -> Vec3): (d: seq<Vec3>)
    ensures |d| == |Bones| == 9
    ensures forall i :: 0 <= i < |Bones| ==>
      Add(bindPosition(Bones[i].parent), d[i]) == bindPosition(Bones[i].child)
  {
    seq(|Bones|, i requires 0 <= i < |Bones| => Sub(bindPosition(Bones[i].child), bindPosition(Bones[i].parent)))
  }

  /** The bone that ends at joint j. */
  function ParentBone(j: JointType): (i: nat)
    requires j != HipCenter
    ensures i < |Bones| && Bones[i].child == j
  {
    match j
    case Spine => 0
    case ShoulderCenter => 1
    case Head => 2
    case ShoulderLeft => 3
    case ShoulderRight => 4
    case ElbowLeft => 5
    case ElbowRight => 6
    case HandLeft => 7
    case HandRight => 8
  }

  /** The bones form a tree rooted at HipCenter: HipCenter ends no bone, and
      every other joint ends exactly one, which starts at a joint visited
      earlier in the Update order. */
  lemma BonesFormTree()
    ensures forall i :: 0 <= i < |Bones| ==> Bones[i].child != HipCenter
    ensures forall i :: 0 <= i < |Bones| ==> Bones[i] == Bones[ParentBone(Bones[i].child)]
    ensures forall i :: 0 <= i < |Bones| ==> i == ParentBone(Bones[i].child)
    ensures forall i :: 0 <= i < |Bones| ==> OrderIndex(Bones[i].parent) < OrderIndex(Bones[i].child)
  {
  }

  /** One RotateJointWithAngle call made by RotateJoint: the target is the
      filtered position of `to` minus that of `from`, its x component
      tripled when boostX, and the direction is boneDirection[bone]. */
  datatype Request = Request(from: JointType, to: JointType, bone: nat, boostX: bool)

  /** The switch of RotateJoint: which rotations each joint receives. */
  function Requests(j: JointType, transmissionOnHead: bool): (rs: seq<Request>)
    ensures forall r :: r in rs ==> r.from == j && r.bone < |Bones|
    ensures |rs| == 0 <==> (j == HandLeft || j == HandRight || (j == Head && !transmissionOnHead))
    ensures |rs| == 3 <==> j == ShoulderCenter
    ensures |rs| <= 3
  {
    match j
    case HipCenter => [Request(HipCenter, Spine, 0, false)]
    case Spine => [Request(Spine, ShoulderCenter, 1, false)]
    case ShoulderCenter => [
      Request(ShoulderCenter, ShoulderLeft, 2, false),
      Request(ShoulderCenter, ShoulderRight, 3, false),
      Request(ShoulderCenter, Head, 4, false)]
    case Head =>
      // boneDirection[jointIndex - 1], with jointIndex = indexOfJointType[Head] = 3
      if transmissionOnHead then [Request(Head, ShoulderCenter, OrderIndex(Head) - 1, true)] else []
    case ShoulderLeft => [Request(ShoulderLeft, ElbowLeft, 5, false)]
    case ShoulderRight => [Request(ShoulderRight, ElbowRight, 6, false)]
    case ElbowLeft => [Request(ElbowLeft, HandLeft, 7, false)]
    case ElbowRight => [Request(ElbowRight, HandRight, 8, false)]
    case HandLeft => []
    case HandRight => []
  }

  /** For the six joints that receive one ordinary rotation, the bone
      direction is that of the very bone the target measures: the rotation
      turns the bind-pose bone onto the tracked one. */
  lemma SingleRotationsMatchTheirBone(j: JointType, transmissionOnHead: bool)
    requires j in {HipCenter, Spine, ShoulderLeft, ShoulderRight, ElbowLeft, ElbowRight}
    ensures |Requests(j, transmissionOnHead)| == 1
    ensures var r := Requests(j, transmissionOnHead)[0];
            Bones[r.bone] == Bone(r.from, r.to) && !r.boostX
  {
  }

  /** The head's rotation uses the ShoulderCenter-to-Head bone but a target
      from the head to ShoulderCenter: direction and target point opposite
      ways along the same bone. */
  lemma HeadRotationReversed()
    ensures |Requests(Head, true)| == 1
    ensures var r := Requests(Head, true)[0];
            r.to == ShoulderCenter && r.boostX && Bones[r.bone] == Bone(r.to, r.from)
  {
  }

  /** ShoulderCenter's three rotations each pair a target with the wrong
      bone: every bone starts at ShoulderCenter, but its child is the target
      of another of the three rotations, so no rotation of ShoulderCenter
      uses the bone it measures. */
  lemma ShoulderCenterBonesRotated()
    ensures var rs := Requests(ShoulderCenter, true);
            && |rs| == 3
            && Bones[rs[0].bone] == Bone(ShoulderCenter, rs[2].to)
            && Bones[rs[1].bone] == Bone(ShoulderCenter, rs[0].to)
            && Bones[rs[2].bone] == Bone(ShoulderCenter, rs[1].to)
            && (forall r :: r in rs ==> Bones[r.bone] != Bone(r.from, r.to))
  {
  }

  /** The vector RotateJoint computes as target for a request. */
  function Target(r: Request, pos: map<JointType, Vec3>): Vec3
    requires r.from in pos && r.to in pos
  {
    var t := Sub(pos[r.to], pos[r.from]);
    if r.boostX then Vec3(t.x * 3.0, t.y, t.z) else t
  }

  /** The factor FromToRotation(direction, target); the transforms of the
      target into world and joint space are engine code. */
  datatype Align = Align(direction: Vec3, target: Vec3)

  /** A joint's localRotation: its starting rotation followed by the factors
      multiplied onto it on the right (localRotation * quat), oldest first. */
  datatype Rotation = Bind(joint: JointType) | Then(prior: Rotation, step: Align)

  /** Every joint at its starting rotation (baseRotation). */
  function BindPose(): (m: map<JointType, Rotation>)
    ensures forall j :: j in m && m[j] == Bind(j)
  {
    JointOrderIsPermutation();
    map j | j in AllJoints :: Bind(j)
  }

  /** The factors of a rotation, in the order they were applied. */
  function Steps(q: Rotation): seq<Align> {
    match q
    case Bind(_) => []
    case Then(prior, step) => Steps(prior) + [step]
  }

  function Origin(q: Rotation): JointType {
    match q
    case Bind(j) => j
    case Then(prior, _) => Origin(prior)
  }

  /** The factors a list of requests produces. */
  function Aligns(rs: seq<Request>, pos: map<JointType, Vec3>, boneDirection: seq<Vec3>): (steps: seq<Align>)
    requires forall r :: r in rs ==> r.bone < |boneDirection| && r.from in pos && r.to in pos
    ensures |steps| == |rs|
    ensures forall i :: 0 <= i < |rs| ==>
      steps[i].direction == boneDirection[rs[i].bone] && steps[i].target == Target(rs[i], pos)
  {
    seq(|rs|, i requires 0 <= i < |rs| => Align(boneDirection[rs[i].bone], Target(rs[i], pos)))
  }

  /** localRotation after applying factors one by one. */
  function Compose(q: Rotation, steps: seq<Align>): Rotation
    decreases |steps|
  {
    if steps == [] then q else Compose(Then(q, steps[0]), steps[1..])
  }

  /** Composing appends the factors after the existing ones, in the order
      they are issued, and never touches the starting rotation. */
  lemma {:induction false} ComposeAppends(q: Rotation, steps: seq<Align>)
    ensures Steps(Compose(q, steps)) == Steps(q) + steps
    ensures Origin(Compose(q, steps)) == Origin(q)
    decreases |steps|
  {
    if steps != [] {
      ComposeAppends(Then(q, steps[0]), steps[1..]);
      assert Steps(q) + [steps[0]] + steps[1..] == Steps(q) + steps;
    }
  }
}
