/**
 Lower-body retargeting: source joint deltas composed onto the avatar's calibrated rest pose, clamped to a
 workspace, a speed, the floor and the leg length, in this order. Arithmetic is over the reals and the
 Euclidean norm is a parameter.
 */
module LowerBodyModel {
  import opened Contracts
  import opened Vectors

  datatype Joint = Hips | LeftFoot | RightFoot

  /** One value for each tracked joint. */
  datatype Body = Body(hips: Vec, leftFoot: Vec, rightFoot: Vec)

  function At(b: Body, j: Joint): Vec {
    match j
    case Hips => b.hips
    case LeftFoot => b.leftFoot
    case RightFoot => b.rightFoot
  }

  datatype Limits = Limits(hipsOffset: real, footOffset: real, legExtension: real, hipsSpeed: real, footSpeed: real)

  /** The avatar's rest pose at this head height, its leg length, and which source joints are tracked. */
  datatype Rig = Rig(
    rest: Body,
    headHeight: real,
    legLength: real,
    referenceHeight: real,
    bodyScale: real,
    fps: real,
    limits: Limits,
    hipsIndex: nat,
    leftIndex: nat,
    rightIndex: nat)

  predicate ValidRig(r: Rig) {
    && r.headHeight > 0.0 && r.referenceHeight > 0.0 && r.bodyScale > 0.0 && r.fps > 0.0
    && r.limits.hipsOffset > 0.0 && r.limits.footOffset > 0.0 && r.limits.legExtension >= 1.0
    && r.limits.hipsSpeed > 0.0 && r.limits.footSpeed > 0.0
  }

  datatype Retargeter = Retargeter(source: Option<Body>, previous: Option<Body>)

  const FRESH := Retargeter(None, None)

  /** The source's X axis points left, the avatar's right. */
  function ToUnity(v: Vec): Vec {
    Vec(-v.x, v.y, v.z)
  }

  function Index(r: Rig, j: Joint): nat {
    match j
    case Hips => r.hipsIndex
    case LeftFoot => r.leftIndex
    case RightFoot => r.rightIndex
  }

  predicate HasJoints(r: Rig, pose: seq<Vec>) {
    forall j: Joint :: Index(r, j) < |pose|
  }

  function Tracked(r: Rig, pose: seq<Vec>): Body
    requires HasJoints(r, pose)
  {
    assert Index(r, Hips) < |pose| && Index(r, LeftFoot) < |pose| && Index(r, RightFoot) < |pose|;
    Body(pose[r.hipsIndex], pose[r.leftIndex], pose[r.rightIndex])
  }

  function MaxOffset(r: Rig, j: Joint): real {
    (if j.Hips? then r.limits.hipsOffset else r.limits.footOffset) * r.headHeight
  }

  function MaxStep(r: Rig, j: Joint): real
    requires r.fps > 0.0
  {
    (if j.Hips? then r.limits.hipsSpeed else r.limits.footSpeed) * r.headHeight / r.fps
  }

  function Larger(a: real, b: real): real {
    if b > a then b else a
  }

  /** A leg may stretch from whichever is longer: its rest pose or its scaled bone chain. */
  function MaxReach(norm: Vec -> real, r: Rig, foot: Joint): real
    requires ValidRig(r)
  {
    Larger(Distance(norm, At(r.rest, foot), r.rest.hips), r.legLength * (r.headHeight / r.referenceHeight))
      * r.limits.legExtension
  }

  function Follow(r: Rig, source: Body, tracked: Body, j: Joint): Vec {
    Add(At(r.rest, j), ToUnity(Scale(Sub(At(tracked, j), At(source, j)), r.bodyScale)))
  }

  /** Workspace clamp, then speed clamp from the previous output. */
  function Place(norm: Vec -> real, r: Rig, previous: Option<Body>, j: Joint, target: Vec): Vec
    requires ValidRig(r)
  {
    var inside := LimitDistance(norm, target, At(r.rest, j), MaxOffset(r, j)).0;
    if previous.None? then inside
    else LimitDistance(norm, inside, At(previous.value, j), MaxStep(r, j)).0
  }

  function OnFloor(r: Rig, foot: Joint, position: Vec): Vec {
    var floor := At(r.rest, foot).y;
    if position.y < floor then position.(y := floor) else position
  }

  function Foot(norm: Vec -> real, r: Rig, foot: Joint, hips: Vec, placed: Vec): Vec
    requires ValidRig(r)
  {
    LimitDistance(norm, OnFloor(r, foot, placed), hips, MaxReach(norm, r, foot)).0
  }

  function Pose(norm: Vec -> real, r: Rig, source: Body, previous: Option<Body>, tracked: Body): Body
    requires ValidRig(r)
  {
    var hips := Place(norm, r, previous, Hips, Follow(r, source, tracked, Hips));
    var left := Place(norm, r, previous, LeftFoot, Follow(r, source, tracked, LeftFoot));
    var right := Place(norm, r, previous, RightFoot, Follow(r, source, tracked, RightFoot));
    Body(hips, Foot(norm, r, LeftFoot, hips, left), Foot(norm, r, RightFoot, hips, right))
  }

  /** A pose without the tracked joints is refused and changes nothing. */
  function Retarget(norm: Vec -> real, r: Rig, s: Retargeter, pose: seq<Vec>): (Retargeter, Option<Body>)
    requires ValidRig(r)
  {
    if !HasJoints(r, pose) then (s, None)
    else
      var source := if s.source.Some? then s.source.value else Tracked(r, pose);
      var body := Pose(norm, r, source, s.previous, Tracked(r, pose));
      (Retargeter(Some(source), Some(body)), Some(body))
  }
}
