/** What lower-body retargeting guarantees for every run of source poses. */
module LowerBodyRuns {
  import opened Contracts
  import opened Vectors
  import opened LowerBodyModel

  /** A source pose arrives, or the retargeter is reset. */
  datatype Event = PoseEvent(pose: seq<Vec>) | ResetEvent

  function Step(norm: Vec -> real, r: Rig, s: Retargeter, e: Event): Retargeter
    requires ValidRig(r)
  {
    match e
    case PoseEvent(pose) => Retarget(norm, r, s, pose).0
    case ResetEvent => FRESH
  }

  function Run(norm: Vec -> real, r: Rig, s: Retargeter, es: seq<Event>): Retargeter
    requires ValidRig(r)
    decreases |es|
  {
    if es == [] then s else Run(norm, r, Step(norm, r, s, es[0]), es[1..])
  }

  // ---- The hips ----

  ghost predicate InWorkspace(norm: Vec -> real, r: Rig, hips: Vec) {
    Distance(norm, hips, r.rest.hips) <= Kept(MaxOffset(r, Hips))
  }

  ghost predicate Sound(norm: Vec -> real, r: Rig, s: Retargeter) {
    s.previous.Some? ==> InWorkspace(norm, r, s.previous.value.hips)
  }

  lemma LimitsArePositive(r: Rig, j: Joint)
    requires ValidRig(r)
    ensures MaxOffset(r, j) >= 0.0 && MaxStep(r, j) >= 0.0
  {
    var offset, speed := if j.Hips? then r.limits.hipsOffset else r.limits.footOffset,
                         if j.Hips? then r.limits.hipsSpeed else r.limits.footSpeed;
    ProductIsNonnegative(offset, r.headHeight);
    ProductIsNonnegative(speed, r.headHeight);
    QuotientIsNonnegative(speed * r.headHeight, r.fps);
  }

  lemma QuotientIsNonnegative(a: real, b: real)
    requires a >= 0.0 && b > 0.0
    ensures a / b >= 0.0
  {
    var q := a / b;
    assert q * b == a;
    if q < 0.0 { ProductBelow(q, 0.0, b); }
  }

  /** Any joint moves at most its step from the previous output before the floor and leg clamps. */
  lemma StepIsBounded(norm: Vec -> real, r: Rig, previous: Body, j: Joint, target: Vec)
    requires IsNorm(norm) && ValidRig(r)
    ensures Distance(norm, Place(norm, r, Some(previous), j, target), At(previous, j)) <= Kept(MaxStep(r, j))
  {
    LimitsArePositive(r, j);
    ClampReaches(norm, LimitDistance(norm, target, At(r.rest, j), MaxOffset(r, j)).0, At(previous, j), MaxStep(r, j));
  }

  /** The speed clamp pulls back along a segment whose ends are in the workspace ball, so it stays there. */
  lemma HipsStayInside(norm: Vec -> real, r: Rig, previous: Option<Body>, target: Vec)
    requires IsNorm(norm) && ValidRig(r)
    requires previous.Some? ==> InWorkspace(norm, r, previous.value.hips)
    ensures InWorkspace(norm, r, Place(norm, r, previous, Hips, target))
  {
    LimitsArePositive(r, Hips);
    ClampReaches(norm, target, r.rest.hips, MaxOffset(r, Hips));
    if previous.Some? {
      var inside := LimitDistance(norm, target, r.rest.hips, MaxOffset(r, Hips)).0;
      var t := ClampStaysOnSegment(norm, inside, previous.value.hips, MaxStep(r, Hips));
      BallIsConvex(norm, r.rest.hips, Kept(MaxOffset(r, Hips)), previous.value.hips, inside, t,
                   Place(norm, r, previous, Hips, target));
    }
  }

  // ---- The feet ----

  lemma ReachCoversRest(norm: Vec -> real, r: Rig, foot: Joint)
    requires IsNorm(norm) && ValidRig(r)
    ensures 0.0 <= Distance(norm, At(r.rest, foot), r.rest.hips) <= MaxReach(norm, r, foot)
  {
    var chain :=
      Larger(Distance(norm, At(r.rest, foot), r.rest.hips), r.legLength * (r.headHeight / r.referenceHeight));
    ProductIsNonnegative(chain, r.limits.legExtension - 1.0);
    assert chain * r.limits.legExtension == chain + chain * (r.limits.legExtension - 1.0);
  }

  /** A foot ends within leg reach of the hips, and below its floor only if the hips are lower still. */
  lemma FootIsReachable(norm: Vec -> real, r: Rig, foot: Joint, hips: Vec, placed: Vec)
    requires IsNorm(norm) && ValidRig(r)
    ensures
      var f := Foot(norm, r, foot, hips, placed);
      && Distance(norm, f, hips) <= Kept(MaxReach(norm, r, foot))
      && (At(r.rest, foot).y <= f.y || hips.y <= f.y)
  {
    ReachCoversRest(norm, r, foot);
    var grounded := OnFloor(r, foot, placed);
    ClampReaches(norm, grounded, hips, MaxReach(norm, r, foot));
    var t := ClampStaysOnSegment(norm, grounded, hips, MaxReach(norm, r, foot));
    var floor := At(r.rest, foot).y;
    MixAtLeast(hips.y, grounded.y, t, if hips.y < floor then hips.y else floor);
  }

  // ---- Main results ----

  ghost predicate SafeBody(norm: Vec -> real, r: Rig, b: Body)
    requires ValidRig(r)
  {
    && InWorkspace(norm, r, b.hips)
    && (forall foot: Joint | !foot.Hips? ::
          && Distance(norm, At(b, foot), b.hips) <= Kept(MaxReach(norm, r, foot))
          && (At(r.rest, foot).y <= b.hips.y ==> At(r.rest, foot).y <= At(b, foot).y))
  }

  lemma PoseIsSafe(norm: Vec -> real, r: Rig, source: Body, previous: Option<Body>, tracked: Body)
    requires IsNorm(norm) && ValidRig(r)
    requires previous.Some? ==> InWorkspace(norm, r, previous.value.hips)
    ensures SafeBody(norm, r, Pose(norm, r, source, previous, tracked))
  {
    var b := Pose(norm, r, source, previous, tracked);
    HipsStayInside(norm, r, previous, Follow(r, source, tracked, Hips));
    forall foot: Joint | !foot.Hips?
      ensures Distance(norm, At(b, foot), b.hips) <= Kept(MaxReach(norm, r, foot))
      ensures At(r.rest, foot).y <= b.hips.y ==> At(r.rest, foot).y <= At(b, foot).y
    {
      FootIsReachable(norm, r, foot, b.hips, Place(norm, r, previous, foot, Follow(r, source, tracked, foot)));
    }
  }

  lemma {:induction false} RunKeepsSound(norm: Vec -> real, r: Rig, s: Retargeter, es: seq<Event>)
    requires IsNorm(norm) && ValidRig(r) && Sound(norm, r, s)
    ensures Sound(norm, r, Run(norm, r, s, es))
    decreases |es|
  {
    if es != [] {
      if es[0].PoseEvent? && HasJoints(r, es[0].pose) {
        var source := if s.source.Some? then s.source.value else Tracked(r, es[0].pose);
        PoseIsSafe(norm, r, source, s.previous, Tracked(r, es[0].pose));
      }
      RunKeepsSound(norm, r, Step(norm, r, s, es[0]), es[1..]);
    }
  }

  /**
   After any run of poses and resets, the next output keeps its hips in the workspace ball and each foot within
   leg reach of the hips; a foot is below its floor only when the hips are; and unless a reset or the start of
   the stream comes between, the hips moved at most their step from the output before.
   */
  lemma EveryOutputIsSafe(norm: Vec -> real, r: Rig, es: seq<Event>, pose: seq<Vec>)
    requires IsNorm(norm) && ValidRig(r)
    ensures
      var s := Run(norm, r, FRESH, es);
      var (next, output) := Retarget(norm, r, s, pose);
      && (output.Some? <==> HasJoints(r, pose))
      && (output.Some? ==>
            && SafeBody(norm, r, output.value)
            && next.previous == output
            && (s.previous.Some? ==>
                  Distance(norm, output.value.hips, s.previous.value.hips) <= Kept(MaxStep(r, Hips))))
  {
    RunKeepsSound(norm, r, FRESH, es);
    var s := Run(norm, r, FRESH, es);
    if HasJoints(r, pose) {
      var source := if s.source.Some? then s.source.value else Tracked(r, pose);
      PoseIsSafe(norm, r, source, s.previous, Tracked(r, pose));
      if s.previous.Some? {
        StepIsBounded(norm, r, s.previous.value, Hips, Follow(r, source, Tracked(r, pose), Hips));
      }
    }
  }

  lemma NoDeltaIsRest(norm: Vec -> real, r: Rig, tracked: Body, j: Joint)
    requires IsNorm(norm) && ValidRig(r)
    ensures Place(norm, r, None, j, Follow(r, tracked, tracked, j)) == At(r.rest, j)
  {
    NoDelta(At(tracked, j));
    ScaleNothing(r.bodyScale);
    AddNothing(At(r.rest, j));
    assert ToUnity(ZERO) == ZERO;
    PlacedAtRest(norm, r, j, Follow(r, tracked, tracked, j));
  }

  lemma PlacedAtRest(norm: Vec -> real, r: Rig, j: Joint, target: Vec)
    requires IsNorm(norm) && ValidRig(r) && target == At(r.rest, j)
    ensures Place(norm, r, None, j, target) == At(r.rest, j)
  {
    LimitsArePositive(r, j);
    OriginStays(norm, At(r.rest, j), MaxOffset(r, j));
  }

  lemma RestIsReachable(norm: Vec -> real, r: Rig, foot: Joint)
    requires IsNorm(norm) && ValidRig(r)
    ensures Foot(norm, r, foot, r.rest.hips, At(r.rest, foot)) == At(r.rest, foot)
  {
    ReachCoversRest(norm, r, foot);
  }

  /** The first frame after a start or a reset is exactly the calibrated rest pose, whatever the source's posture. */
  lemma FirstFrameIsTheRestPose(norm: Vec -> real, r: Rig, pose: seq<Vec>)
    requires IsNorm(norm) && ValidRig(r) && HasJoints(r, pose)
    ensures Retarget(norm, r, FRESH, pose).1 == Some(r.rest)
  {
    var tracked := Tracked(r, pose);
    NoDeltaIsRest(norm, r, tracked, Hips);
    NoDeltaIsRest(norm, r, tracked, LeftFoot);
    NoDeltaIsRest(norm, r, tracked, RightFoot);
    RestIsReachable(norm, r, LeftFoot);
    RestIsReachable(norm, r, RightFoot);
  }

  // ---- Following the source ----

  lemma MirroringKeepsLength(v: Vec)
    ensures Dot(ToUnity(v), ToUnity(v)) == Dot(v, v)
  {
    assert (-v.x) * (-v.x) == v.x * v.x;
  }

  /** Before any clamp a joint is displaced from its rest position by the source's displacement times the body scale. */
  lemma FollowScalesTheDisplacement(norm: Vec -> real, r: Rig, source: Body, tracked: Body, j: Joint)
    requires IsNorm(norm) && ValidRig(r)
    ensures Distance(norm, Follow(r, source, tracked, j), At(r.rest, j))
         == Distance(norm, At(tracked, j), At(source, j)) * r.bodyScale
  {
    var delta := Sub(At(tracked, j), At(source, j));
    var moved := ToUnity(Scale(delta, r.bodyScale));
    SubtractRest(At(r.rest, j), moved);
    MirroringKeepsLength(Scale(delta, r.bodyScale));
    ScaledLength(delta, r.bodyScale);
    RootOfScaled(norm(moved), norm(delta), r.bodyScale);
  }

  lemma SubtractRest(rest: Vec, v: Vec)
    ensures Sub(Add(rest, v), rest) == v
  {
    var Vec(x, y, z) := v;
  }

  lemma RootOfScaled(a: real, b: real, k: real)
    requires a >= 0.0 && b >= 0.0 && k > 0.0 && a * a == k * k * (b * b)
    ensures a == b * k
  {
    ProductIsNonnegative(b, k);
    ScaledSquare(b, k);
    SquareOrder(a, b * k);
    SquareOrder(b * k, a);
  }
}
