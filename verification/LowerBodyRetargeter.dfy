/** The retargeter object: per-joint dictionaries filled in loops, proved against LowerBodyModel. */
module LowerBodyRetargeter {
  import opened Contracts
  import opened Vectors
  import opened LowerBodyModel

  const JOINTS := [Hips, LeftFoot, RightFoot]

  predicate Full(m: map<Joint, Vec>) {
    Hips in m && LeftFoot in m && RightFoot in m
  }

  function BodyOf(m: map<Joint, Vec>): Body
    requires Full(m)
  {
    Body(m[Hips], m[LeftFoot], m[RightFoot])
  }

  function Stored(m: map<Joint, Vec>): Option<Body>
    requires m == map[] || Full(m)
  {
    if m == map[] then None else Some(BodyOf(m))
  }

  class LowerBodyRetargeter {
    const norm: Vec -> real
    const rig: Rig
    var source: map<Joint, Vec>
    var previous: map<Joint, Vec>

    ghost predicate Valid()
      reads this
    {
      ValidRig(rig) && (source == map[] || Full(source)) && (previous == map[] || Full(previous))
      && (source == map[] ==> previous == map[])
    }

    ghost function Model(): Retargeter
      requires Valid()
      reads this
    {
      Retargeter(Stored(source), Stored(previous))
    }

    constructor (norm: Vec -> real, rig: Rig)
      requires ValidRig(rig)
      ensures Valid() && Model() == FRESH && this.norm == norm && this.rig == rig
    {
      this.norm, this.rig := norm, rig;
      source, previous := map[], map[];
    }

    method Reset()
      requires Valid()
      modifies this
      ensures Valid() && Model() == FRESH
    {
      source, previous := map[], map[];
    }

    method Initialize(pose: seq<Vec>)
      requires Valid() && HasJoints(rig, pose)
      modifies this`source
      ensures Full(source) && BodyOf(source) == Tracked(rig, pose)
    {
      source := map[];
      for i := 0 to |JOINTS|
        invariant forall k :: 0 <= k < i ==> JOINTS[k] in source && source[JOINTS[k]] == pose[Index(rig, JOINTS[k])]
      {
        source := source[JOINTS[i] := pose[Index(rig, JOINTS[i])]];
      }
      assert JOINTS[0] == Hips && JOINTS[1] == LeftFoot && JOINTS[2] == RightFoot;
    }

    /** Every tracked joint follows the source inside its workspace and speed. */
    method PlaceAll(pose: seq<Vec>) returns (output: map<Joint, Vec>)
      requires Valid() && Full(source) && HasJoints(rig, pose)
      ensures Full(output)
      ensures forall j :: j in output ==>
        output[j] == Place(norm, rig, Stored(previous), j, Follow(rig, BodyOf(source), Tracked(rig, pose), j))
    {
      output := map[];
      for i := 0 to |JOINTS|
        invariant forall k :: 0 <= k < i ==> JOINTS[k] in output
        invariant forall j :: j in output ==>
          output[j] == Place(norm, rig, Stored(previous), j, Follow(rig, BodyOf(source), Tracked(rig, pose), j))
      {
        var j := JOINTS[i];
        var delta := Sub(pose[Index(rig, j)], source[j]);
        var target := Add(At(rig.rest, j), ToUnity(Scale(delta, rig.bodyScale)));
        var inside, clamped := LimitDistanceOf(target, At(rig.rest, j), MaxOffset(rig, j));
        if j in previous {
          inside, clamped := LimitDistanceOf(inside, previous[j], MaxStep(rig, j));
        }
        output := output[j := inside];
      }
      assert JOINTS[0] == Hips && JOINTS[1] == LeftFoot && JOINTS[2] == RightFoot;
    }

    method LimitDistanceOf(value: Vec, origin: Vec, maximum: real) returns (limited: Vec, clamped: bool)
      ensures (limited, clamped) == LimitDistance(norm, value, origin, maximum)
    {
      limited, clamped := value, false;
      var delta := Sub(value, origin);
      var distance := norm(delta);
      if distance > maximum && distance > TINY {
        limited, clamped := Add(origin, Scale(delta, maximum / distance)), true;
      }
    }

    /** Both feet are lifted to the floor, then pulled within leg reach of the hips. */
    method SettleFeet(placed: map<Joint, Vec>) returns (output: map<Joint, Vec>)
      requires ValidRig(rig) && Full(placed)
      ensures Full(output) && output[Hips] == placed[Hips]
      ensures output[LeftFoot] == Foot(norm, rig, LeftFoot, placed[Hips], placed[LeftFoot])
      ensures output[RightFoot] == Foot(norm, rig, RightFoot, placed[Hips], placed[RightFoot])
    {
      output := placed;
      for i := 1 to |JOINTS|
        invariant Full(output) && output[Hips] == placed[Hips]
        invariant forall k :: 1 <= k < |JOINTS| ==>
          output[JOINTS[k]] == if k < i then OnFloor(rig, JOINTS[k], placed[JOINTS[k]]) else placed[JOINTS[k]]
      {
        var minimum := At(rig.rest, JOINTS[i]).y;
        if output[JOINTS[i]].y < minimum {
          output := output[JOINTS[i] := output[JOINTS[i]].(y := minimum)];
        }
      }
      for i := 1 to |JOINTS|
        invariant Full(output) && output[Hips] == placed[Hips]
        invariant forall k :: 1 <= k < |JOINTS| ==>
          output[JOINTS[k]] == if k < i then Foot(norm, rig, JOINTS[k], placed[Hips], placed[JOINTS[k]])
                               else OnFloor(rig, JOINTS[k], placed[JOINTS[k]])
      {
        var limited, clamped := LimitDistanceOf(output[JOINTS[i]], output[Hips], MaxReach(norm, rig, JOINTS[i]));
        output := output[JOINTS[i] := limited];
      }
      assert JOINTS[1] == LeftFoot && JOINTS[2] == RightFoot;
    }

    method Retarget(pose: seq<Vec>) returns (body: Option<Body>)
      requires Valid()
      modifies this
      ensures Valid()
      ensures (Model(), body) == LowerBodyModel.Retarget(norm, rig, old(Model()), pose)
    {
      if |pose| <= rig.hipsIndex || |pose| <= rig.leftIndex || |pose| <= rig.rightIndex {
        assert !HasJoints(rig, pose) by {
          assert Index(rig, Hips) >= |pose| || Index(rig, LeftFoot) >= |pose| || Index(rig, RightFoot) >= |pose|;
        }
        return None;
      }
      if source == map[] {
        Initialize(pose);
      }
      var placed := PlaceAll(pose);
      var output := SettleFeet(placed);
      previous := output;
      return Some(BodyOf(output));
    }
  }
}
