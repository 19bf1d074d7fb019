/** What each joint follows, and exactly how far the clamps hold it back. */
module LowerBodyTargets {
  import opened Contracts
  import opened Vectors
  import opened LowerBodyModel
  import opened LowerBodyRuns

  // ---- The reference ----

  /** The tracked joints of the first complete pose since the start or the last reset. */
  function Reference(r: Rig, reference: Option<Body>, es: seq<Event>): Option<Body>
    decreases |es|
  {
    if es == [] then reference
    else
      Reference(
        r,
        match es[0]
        case ResetEvent => None
        case PoseEvent(pose) =>
          if reference.None? && Complete(r, pose)
          then Some(Body(pose[r.hipsIndex], pose[r.leftIndex], pose[r.rightIndex])) else reference,
        es[1..])
  }

  predicate Complete(r: Rig, pose: seq<Vec>) {
    r.hipsIndex < |pose| && r.leftIndex < |pose| && r.rightIndex < |pose|
  }

  lemma CompleteHasJoints(r: Rig, pose: seq<Vec>)
    ensures HasJoints(r, pose) <==> Complete(r, pose)
  {
    if HasJoints(r, pose) {
      assert Index(r, Hips) < |pose| && Index(r, LeftFoot) < |pose| && Index(r, RightFoot) < |pose|;
    }
  }

  /** Displacements are measured from the first complete pose since the start or the last reset, joint by joint. */
  lemma {:induction false} ReferenceIsTheFirstPose(norm: Vec -> real, r: Rig, s: Retargeter, es: seq<Event>)
    requires ValidRig(r)
    ensures Run(norm, r, s, es).source == Reference(r, s.source, es)
    decreases |es|
  {
    if es != [] {
      if es[0].PoseEvent? { CompleteHasJoints(r, es[0].pose); }
      ReferenceIsTheFirstPose(norm, r, Step(norm, r, s, es[0]), es[1..]);
    }
  }

  // ---- Limits ----

  /** The limits of the hips, or of a foot, scale with the height of the head. */
  function OffsetLimit(r: Rig, j: Joint): real {
    match j
    case Hips => r.limits.hipsOffset * r.headHeight
    case LeftFoot => r.limits.footOffset * r.headHeight
    case RightFoot => r.limits.footOffset * r.headHeight
  }

  function StepLimit(r: Rig, j: Joint): real
    requires r.fps > 0.0
  {
    match j
    case Hips => r.limits.hipsSpeed * r.headHeight / r.fps
    case LeftFoot => r.limits.footSpeed * r.headHeight / r.fps
    case RightFoot => r.limits.footSpeed * r.headHeight / r.fps
  }

  /** A leg reaches as far as at rest, or as its bones scaled to the head's height, stretched by the extension. */
  ghost predicate IsReach(norm: Vec -> real, r: Rig, foot: Joint, reach: real)
    requires ValidRig(r)
  {
    var rest, bones := Distance(norm, At(r.rest, foot), r.rest.hips), r.legLength * (r.headHeight / r.referenceHeight);
    reach == (if rest < bones then bones else rest) * r.limits.legExtension
  }

  lemma LimitsAreTheLimits(r: Rig, j: Joint)
    requires ValidRig(r)
    ensures MaxOffset(r, j) == OffsetLimit(r, j) && MaxStep(r, j) == StepLimit(r, j)
  {
  }

  lemma ReachIsTheReach(norm: Vec -> real, r: Rig, foot: Joint, reach: real)
    requires ValidRig(r)
    ensures IsReach(norm, r, foot, reach) <==> reach == MaxReach(norm, r, foot)
  {
  }

  function Nearer(a: real, b: real): real {
    if a <= b then a else b
  }

  /** At the start a joint follows its target up to its workspace limit, and stops exactly there. */
  lemma FirstPlaceIsTight(norm: Vec -> real, r: Rig, j: Joint, target: Vec)
    requires IsNorm(norm) && ValidRig(r) && OffsetLimit(r, j) >= TINY
    ensures
      var placed := Place(norm, r, None, j, target);
      && Distance(norm, placed, At(r.rest, j)) == Nearer(Distance(norm, target, At(r.rest, j)), OffsetLimit(r, j))
      && (Distance(norm, target, At(r.rest, j)) <= OffsetLimit(r, j) ==> placed == target)
  {
    LimitsArePositive(r, j);
    LimitsAreTheLimits(r, j);
    ClampIsTight(norm, target, At(r.rest, j), OffsetLimit(r, j));
  }

  /** Later it follows what its workspace allows up to one step from its last output, and stops exactly there. */
  lemma NextPlaceIsTight(norm: Vec -> real, r: Rig, previous: Body, j: Joint, target: Vec)
    requires IsNorm(norm) && ValidRig(r) && StepLimit(r, j) >= TINY
    ensures
      var allowed, placed := Place(norm, r, None, j, target), Place(norm, r, Some(previous), j, target);
      && Distance(norm, placed, At(previous, j)) == Nearer(Distance(norm, allowed, At(previous, j)), StepLimit(r, j))
      && (Distance(norm, allowed, At(previous, j)) <= StepLimit(r, j) ==> placed == allowed)
  {
    LimitsArePositive(r, j);
    LimitsAreTheLimits(r, j);
    ClampIsTight(norm, Place(norm, r, None, j, target), At(previous, j), StepLimit(r, j));
  }

  lemma FloorRaises(r: Rig, foot: Joint, placed: Vec)
    ensures OnFloor(r, foot, placed)
            == Vec(placed.x, if placed.y < At(r.rest, foot).y then At(r.rest, foot).y else placed.y, placed.z)
  {
  }

  /** A foot is raised to its floor and no higher, and then pulled to the leg's reach and no further. */
  lemma FootIsTight(norm: Vec -> real, r: Rig, foot: Joint, hips: Vec, placed: Vec, reach: real)
    requires IsNorm(norm) && ValidRig(r) && IsReach(norm, r, foot, reach) && reach >= TINY
    ensures
      var floor := At(r.rest, foot).y;
      var raised := Vec(placed.x, if placed.y < floor then floor else placed.y, placed.z);
      var f := Foot(norm, r, foot, hips, placed);
      && Distance(norm, f, hips) == Nearer(Distance(norm, raised, hips), reach)
      && (Distance(norm, raised, hips) <= reach ==> f == raised)
  {
    ReachIsTheReach(norm, r, foot, reach);
    FloorRaises(r, foot, placed);
    ClampIsTight(norm, OnFloor(r, foot, placed), hips, reach);
  }

  /** After any run the hips are in their workspace and within one step of the last output; limits written out. */
  lemma HipsAreBounded(norm: Vec -> real, r: Rig, es: seq<Event>, pose: seq<Vec>)
    requires IsNorm(norm) && ValidRig(r) && OffsetLimit(r, Hips) >= TINY && StepLimit(r, Hips) >= TINY
    ensures
      var s := Run(norm, r, FRESH, es);
      var output := Retarget(norm, r, s, pose).1;
      output.Some? ==>
        && Distance(norm, output.value.hips, r.rest.hips) <= OffsetLimit(r, Hips)
        && (s.previous.Some? ==> Distance(norm, output.value.hips, s.previous.value.hips) <= StepLimit(r, Hips))
  {
    LimitsAreTheLimits(r, Hips);
    EveryOutputIsSafe(norm, r, es, pose);
  }

  // ---- Following ----

  /**
   Where a joint wants to be: its rest position displaced by the source joint's displacement, scaled to the avatar and
   mirrored sideways, since the source's X axis points left and the avatar's right.
   */
  function Wanted(rest: Vec, source: Vec, tracked: Vec, scale: real): Vec {
    Vec(rest.x - scale * (tracked.x - source.x),
        rest.y + scale * (tracked.y - source.y),
        rest.z + scale * (tracked.z - source.z))
  }

  /** The previous output, if any, leaves room for this position. */
  ghost predicate Free(norm: Vec -> real, r: Rig, previous: Option<Body>, j: Joint, target: Vec)
    requires ValidRig(r)
  {
    && Distance(norm, target, At(r.rest, j)) <= OffsetLimit(r, j)
    && (previous.Some? ==> Distance(norm, target, At(previous.value, j)) <= StepLimit(r, j))
  }

  ghost predicate FreeFoot(norm: Vec -> real, r: Rig, foot: Joint, hips: Vec, target: Vec)
    requires ValidRig(r)
  {
    && At(r.rest, foot).y <= target.y
    && exists reach :: IsReach(norm, r, foot, reach) && Distance(norm, target, hips) <= reach
  }

  lemma FollowIsWanted(r: Rig, source: Body, tracked: Body, j: Joint)
    ensures Follow(r, source, tracked, j) == Wanted(At(r.rest, j), At(source, j), At(tracked, j), r.bodyScale)
  {
    var rest, s, t := At(r.rest, j), At(source, j), At(tracked, j);
    Displaced(rest.x, t.x - s.x, r.bodyScale);
    Displaced(rest.y, t.y - s.y, r.bodyScale);
    Displaced(rest.z, t.z - s.z, r.bodyScale);
    var moved := Scale(Sub(t, s), r.bodyScale);
    assert moved == Vec((t.x - s.x) * r.bodyScale, (t.y - s.y) * r.bodyScale, (t.z - s.z) * r.bodyScale);
    assert Follow(r, source, tracked, j) == Vec(rest.x + -moved.x, rest.y + moved.y, rest.z + moved.z);
  }

  lemma Displaced(rest: real, delta: real, scale: real)
    ensures rest + delta * scale == rest + scale * delta && rest + -(delta * scale) == rest - scale * delta
  {
  }

  lemma FreePlace(norm: Vec -> real, r: Rig, previous: Option<Body>, j: Joint, target: Vec)
    requires ValidRig(r) && Free(norm, r, previous, j, target)
    ensures Place(norm, r, previous, j, target) == target
  {
    LimitsAreTheLimits(r, j);
    FreeStays(norm, target, At(r.rest, j), OffsetLimit(r, j));
    if previous.Some? { FreeStays(norm, target, At(previous.value, j), StepLimit(r, j)); }
  }

  lemma FreeStays(norm: Vec -> real, value: Vec, origin: Vec, maximum: real)
    requires Distance(norm, value, origin) <= maximum
    ensures LimitDistance(norm, value, origin, maximum).0 == value
  {
  }

  lemma FreeFootStays(norm: Vec -> real, r: Rig, foot: Joint, hips: Vec, target: Vec)
    requires ValidRig(r) && FreeFoot(norm, r, foot, hips, target)
    ensures Foot(norm, r, foot, hips, target) == target
  {
    var reach :| IsReach(norm, r, foot, reach) && Distance(norm, target, hips) <= reach;
    ReachIsTheReach(norm, r, foot, reach);
    FloorRaises(r, foot, target);
    FreeStays(norm, target, hips, reach);
  }

  /**
   Where no limit is in the way, hips, left foot and right foot of the output are each exactly where their own source
   joint wants them.
   */
  lemma FreeJointsFollowExactly(norm: Vec -> real, r: Rig, s: Retargeter, pose: seq<Vec>)
    requires ValidRig(r) && Complete(r, pose) && s.source.Some?
    requires
      var source := s.source.value;
      var hips := Wanted(r.rest.hips, source.hips, pose[r.hipsIndex], r.bodyScale);
      var left := Wanted(r.rest.leftFoot, source.leftFoot, pose[r.leftIndex], r.bodyScale);
      var right := Wanted(r.rest.rightFoot, source.rightFoot, pose[r.rightIndex], r.bodyScale);
      && Free(norm, r, s.previous, Hips, hips)
      && Free(norm, r, s.previous, LeftFoot, left) && FreeFoot(norm, r, LeftFoot, hips, left)
      && Free(norm, r, s.previous, RightFoot, right) && FreeFoot(norm, r, RightFoot, hips, right)
    ensures
      var source := s.source.value;
      Retarget(norm, r, s, pose).1 == Some(Body(
        Wanted(r.rest.hips, source.hips, pose[r.hipsIndex], r.bodyScale),
        Wanted(r.rest.leftFoot, source.leftFoot, pose[r.leftIndex], r.bodyScale),
        Wanted(r.rest.rightFoot, source.rightFoot, pose[r.rightIndex], r.bodyScale)))
  {
    CompleteHasJoints(r, pose);
    var source, tracked := s.source.value, Body(pose[r.hipsIndex], pose[r.leftIndex], pose[r.rightIndex]);
    assert Tracked(r, pose) == tracked;
    FollowIsWanted(r, source, tracked, Hips);
    FollowIsWanted(r, source, tracked, LeftFoot);
    FollowIsWanted(r, source, tracked, RightFoot);
    var hips := Follow(r, source, tracked, Hips);
    FreePlace(norm, r, s.previous, Hips, hips);
    FreePlace(norm, r, s.previous, LeftFoot, Follow(r, source, tracked, LeftFoot));
    FreePlace(norm, r, s.previous, RightFoot, Follow(r, source, tracked, RightFoot));
    FreeFootStays(norm, r, LeftFoot, hips, Follow(r, source, tracked, LeftFoot));
    FreeFootStays(norm, r, RightFoot, hips, Follow(r, source, tracked, RightFoot));
  }
}
