/**
 Output frames and the blend between two of them. Bodies and faces are kept abstract, and so is the blend
 of two of them: it may be any function of source, target and weight. World movement is a real triple and is
 blended linearly.
 */
module PoseModel {

  /** A body configuration or a face, up to equality. */
  datatype Look = Look(id: int)

  type Blender = (Look, Look, real) -> Look

  datatype Velocity = Velocity(x: real, y: real, turn: real)

  datatype Frame = Frame(body: Look, face: Look, movement: Velocity)

  const STILL := Velocity(0.0, 0.0, 0.0)

  function Still(f: Frame): Frame {
    f.(movement := STILL)
  }

  datatype Transition = Transition(source: Frame, target: Frame)

  function Weight(progress: real): real {
    progress * progress * (3.0 - 2.0 * progress)
  }

  function Lerp(a: real, b: real, w: real): real {
    (1.0 - w) * a + w * b
  }

  function At(blend: Blender, t: Transition, progress: real): Frame
    requires 0.0 <= progress <= 1.0
  {
    if progress == 0.0 then t.source
    else if progress == 1.0 then t.target
    else
      var w := Weight(progress);
      Frame(
        blend(t.source.body, t.target.body, w),
        blend(t.source.face, t.target.face, w),
        Velocity(
          Lerp(t.source.movement.x, t.target.movement.x, w),
          Lerp(t.source.movement.y, t.target.movement.y, w),
          Lerp(t.source.movement.turn, t.target.movement.turn, w)))
  }

  /** Between two frames that do not move through the world, no blend moves either. */
  lemma BlendOfStillIsStill(blend: Blender, t: Transition, progress: real)
    requires 0.0 <= progress <= 1.0
    requires t.source.movement == STILL && t.target.movement == STILL
    ensures At(blend, t, progress).movement == STILL
  {
  }

  function Flip(f: Frame): Frame {
    Frame(f.face, f.body, f.movement)
  }

  /** Body and face are blended alike, from the source towards the target. */
  lemma BodyAndFaceAlike(blend: Blender, t: Transition, progress: real)
    requires 0.0 <= progress <= 1.0
    ensures At(blend, Transition(Flip(t.source), Flip(t.target)), progress) == Flip(At(blend, t, progress))
    ensures progress < 1.0 ==> At((from, to, w) => from, t, progress).body == t.source.body
    ensures progress > 0.0 ==> At((from, to, w) => to, t, progress).body == t.target.body
  {
  }

  /** A component of the movement goes from one end to the other in proportion to the weight. */
  lemma LerpIsProportional(a: real, b: real, w: real)
    ensures Lerp(a, b, 0.0) == a && Lerp(a, b, 1.0) == b
    ensures Lerp(a, b, w) - a == w * (b - a)
  {
  }

  /** The ease is symmetric: slower than a straight line in the first half, and as much faster in the second. */
  lemma WeightEases(p: real)
    requires 0.0 < p < 1.0
    ensures Weight(p) + Weight(1.0 - p) == 1.0
    ensures p < 0.5 <==> Weight(p) < p
  {
    var rest := (1.0 - p) * (1.0 - 2.0 * p);
    assert p - Weight(p) == p * rest;
    if p < 0.5 {
      Product(1.0 - p, 1.0 - 2.0 * p);
      Product(p, rest);
    } else {
      assert (1.0 - p) * (2.0 * p - 1.0) >= 0.0;
      assert p * ((1.0 - p) * (2.0 * p - 1.0)) >= 0.0;
    }
  }

  /** The blend weight rises strictly from 0 to 1. */
  lemma WeightRises(p: real, q: real)
    requires 0.0 <= p < q <= 1.0
    ensures 0.0 <= Weight(p) < Weight(q) <= 1.0
  {
    WeightStep(p, q);
    if p > 0.0 {
      WeightStep(0.0, p);
    }
    if q < 1.0 {
      WeightStep(q, 1.0);
    }
    assert Weight(0.0) == 0.0 && Weight(1.0) == 1.0;
  }

  lemma WeightStep(p: real, q: real)
    requires 0.0 <= p < q <= 1.0
    ensures Weight(p) < Weight(q)
  {
    var slope := Slope(p, q);
    Product(slope, q - p);
  }

  lemma Slope(p: real, q: real) returns (slope: real)
    requires 0.0 <= p < q <= 1.0
    ensures slope > 0.0 && slope * (q - p) == Weight(q) - Weight(p)
  {
    var pp, pq, qq := Bounded(p, p), Bounded(p, q), Bounded(q, q);
    slope := 3.0 * p + 3.0 * q - 2.0 * pp - 2.0 * pq - 2.0 * qq;
    PositiveSlope(p, q, pp, pq, qq);
    CubesDiffer(p, q);
  }

  lemma PositiveSlope(p: real, q: real, pp: real, pq: real, qq: real)
    requires p < q && pp <= p && pq <= p && qq <= q
    ensures 3.0 * p + 3.0 * q - 2.0 * pp - 2.0 * pq - 2.0 * qq > 0.0
  {
  }

  function Bounded(p: real, q: real): (r: real)
    requires 0.0 <= p && q <= 1.0
    ensures r == p * q <= p
  {
    AtMost(p, q);
    p * q
  }

  lemma AtMost(p: real, q: real)
    requires 0.0 <= p && q <= 1.0
    ensures p * q <= p
  {
    assert p * (1.0 - q) >= 0.0;
  }

  lemma Product(a: real, b: real)
    requires a > 0.0 && b > 0.0
    ensures a * b > 0.0
  {
  }

  lemma CubesDiffer(p: real, q: real)
    ensures (3.0 * p + 3.0 * q - 2.0 * (p * p) - 2.0 * (p * q) - 2.0 * (q * q)) * (q - p) == Weight(q) - Weight(p)
  {
    var squares := (p + q) * (q - p);
    var cubes := (p * p + p * q + q * q) * (q - p);
    assert squares == q * q - p * p;
    assert cubes == q * q * q - p * p * p;
    assert Weight(q) == 3.0 * (q * q) - 2.0 * (q * q * q);
    assert Weight(p) == 3.0 * (p * p) - 2.0 * (p * p * p);
  }

  /** Step `k` of `n`. */
  function Progress(k: nat, n: nat): (p: real)
    requires k <= n && 0 < n
    ensures 0.0 <= p <= 1.0
    ensures p == 1.0 <==> k == n
    ensures p == 0.0 <==> k == 0
  {
    k as real / n as real
  }

  lemma ProgressRises(j: nat, k: nat, n: nat)
    requires j < k <= n
    ensures Progress(j, n) < Progress(k, n)
  {
    QuotientRises(j as real, k as real, n as real);
  }

  lemma Scaled(x: real, y: real, n: real)
    requires n > 0.0 && x * n < y * n
    ensures x < y
  {
    assert (y - x) * n > 0.0;
  }

  lemma QuotientRises(a: real, b: real, n: real)
    requires a < b && n > 0.0
    ensures a / n < b / n
  {
    var x, y := a / n, b / n;
    assert x * n == a && y * n == b;
    Scaled(x, y, n);
  }
}
