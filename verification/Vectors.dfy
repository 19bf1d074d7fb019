/** Real vectors and the clamp that limits a point's distance from an origin. */
module Vectors {

  datatype Vec = Vec(x: real, y: real, z: real)

  function Add(a: Vec, b: Vec): Vec {
    Vec(a.x + b.x, a.y + b.y, a.z + b.z)
  }

  function Sub(a: Vec, b: Vec): Vec {
    Vec(a.x - b.x, a.y - b.y, a.z - b.z)
  }

  function Scale(a: Vec, k: real): Vec {
    Vec(a.x * k, a.y * k, a.z * k)
  }

  function Dot(a: Vec, b: Vec): real {
    a.x * b.x + a.y * b.y + a.z * b.z
  }

  /** A Euclidean norm is the nonnegative root of the squared length. */
  ghost predicate IsNorm(norm: Vec -> real) {
    forall v :: norm(v) >= 0.0 && norm(v) * norm(v) == Dot(v, v)
  }

  function Distance(norm: Vec -> real, a: Vec, b: Vec): real {
    norm(Sub(a, b))
  }

  /** Shorter distances are never rescaled, whatever the limit. */
  const TINY := 0.000000000001

  /** The limit that is really kept. */
  function Kept(limit: real): real {
    if limit < TINY then TINY else limit
  }

  function LimitDistance(norm: Vec -> real, value: Vec, origin: Vec, maximum: real): (Vec, bool) {
    var delta := Sub(value, origin);
    var distance := norm(delta);
    if distance <= maximum || distance <= TINY then (value, false)
    else (Add(origin, Scale(delta, maximum / distance)), true)
  }

  // ---- Real arithmetic ----

  lemma RatioIsFraction(a: real, b: real)
    requires 0.0 <= a < b
    ensures 0.0 <= a / b < 1.0 && (a / b) * b == a
  {
    var q := a / b;
    assert q * b == a;
    if q < 0.0 {
      ProductBelow(q, 0.0, b);
    }
    if q >= 1.0 && q != 1.0 {
      ProductBelow(1.0, q, b);
    }
  }

  lemma ProductBelow(p: real, q: real, b: real)
    requires p < q && b > 0.0
    ensures p * b < q * b
  {
    assert (q - p) * b > 0.0;
  }

  lemma ProductIsNonnegative(p: real, q: real)
    requires p >= 0.0 && q >= 0.0
    ensures p * q >= 0.0
  {
  }

  lemma Square(p: real)
    ensures p * p >= 0.0
  {
  }

  lemma SquareStrict(a: real, b: real)
    requires 0.0 <= a < b
    ensures a * a < b * b
  {
    ProductBelow(0.0, b - a, b + a);
    assert (b - a) * (b + a) == b * b - a * a;
  }

  lemma SquareOrder(a: real, b: real)
    requires a >= 0.0 && b >= 0.0 && a * a <= b * b
    ensures a <= b
  {
    if b < a { SquareStrict(b, a); }
  }

  lemma SquareGrows(a: real, b: real)
    requires 0.0 <= a <= b
    ensures a * a <= b * b
  {
    assert a * (b - a) >= 0.0 && b * (b - a) >= 0.0;
  }

  // ---- The clamp ----

  predicate Between(t: real, value: Vec, origin: Vec, result: Vec) {
    0.0 <= t <= 1.0 && result == Add(origin, Scale(Sub(value, origin), t))
  }

  /** A clamped point lies on the segment from the origin to the value. */
  lemma ClampStaysOnSegment(norm: Vec -> real, value: Vec, origin: Vec, maximum: real) returns (t: real)
    requires IsNorm(norm) && maximum >= 0.0
    ensures Between(t, value, origin, LimitDistance(norm, value, origin, maximum).0)
    ensures LimitDistance(norm, value, origin, maximum).1 ==>
      t * Distance(norm, value, origin) == maximum
  {
    var distance := Distance(norm, value, origin);
    if distance <= maximum || distance <= TINY {
      t := 1.0;
    } else {
      RatioIsFraction(maximum, distance);
      t := maximum / distance;
    }
  }

  lemma ScaledLength(v: Vec, t: real)
    ensures Dot(Scale(v, t), Scale(v, t)) == t * t * Dot(v, v)
  {
    ScaledSquare(v.x, t);
    ScaledSquare(v.y, t);
    ScaledSquare(v.z, t);
    Distribute(t * t, v.x * v.x, v.y * v.y, v.z * v.z);
  }

  lemma ScaledSquare(a: real, t: real)
    ensures (a * t) * (a * t) == t * t * (a * a)
  {
  }

  lemma Distribute(k: real, a: real, b: real, c: real)
    ensures k * a + k * b + k * c == k * (a + b + c)
  {
  }

  /** A clamped point is within the limit of its origin. */
  lemma ClampReaches(norm: Vec -> real, value: Vec, origin: Vec, maximum: real)
    requires IsNorm(norm) && maximum >= 0.0
    ensures Distance(norm, LimitDistance(norm, value, origin, maximum).0, origin) <= Kept(maximum)
  {
    var (result, clamped) := LimitDistance(norm, value, origin, maximum);
    if clamped {
      var t := ClampStaysOnSegment(norm, value, origin, maximum);
      var delta := Sub(value, origin);
      assert Sub(result, origin) == Scale(delta, t);
      ScaledLength(delta, t);
      var reached, distance := Distance(norm, result, origin), norm(delta);
      assert reached * reached == t * t * (distance * distance);
      assert t * t * (distance * distance) == (t * distance) * (t * distance) by { ScaledSquare(distance, t); }
      SquareOrder(reached, maximum);
    }
  }

  lemma NormOfScaled(norm: Vec -> real, v: Vec, t: real)
    requires IsNorm(norm) && t >= 0.0
    ensures norm(Scale(v, t)) == t * norm(v)
  {
    ScaledLength(v, t);
    var scaled, length := norm(Scale(v, t)), norm(v);
    ScaledSquare(length, t);
    ProductIsNonnegative(t, length);
    assert scaled * scaled == (t * length) * (t * length);
    SquareOrder(scaled, t * length);
    SquareOrder(t * length, scaled);
  }

  /** A clamp never does more than it must: a point within the limit stays, any other ends exactly at the limit. */
  lemma ClampIsTight(norm: Vec -> real, value: Vec, origin: Vec, maximum: real)
    requires IsNorm(norm) && maximum >= 0.0
    ensures
      var result := LimitDistance(norm, value, origin, maximum).0;
      if Distance(norm, value, origin) <= Kept(maximum) then result == value
      else Distance(norm, result, origin) == maximum
  {
    var (result, clamped) := LimitDistance(norm, value, origin, maximum);
    if clamped {
      var t := ClampStaysOnSegment(norm, value, origin, maximum);
      var delta := Sub(value, origin);
      assert Sub(result, origin) == Scale(delta, t);
      NormOfScaled(norm, delta, t);
    }
  }

  lemma Convex(a: real, b: real, t: real, m: real)
    requires 0.0 <= t <= 1.0 && m == a + (b - a) * t
    ensures m * m <= (1.0 - t) * (a * a) + t * (b * b)
  {
    ProductIsNonnegative(t, 1.0 - t);
    Square(b - a);
    ProductIsNonnegative(t * (1.0 - t), (b - a) * (b - a));
    ConvexGap(a, b, t);
    assert m * m == (a + (b - a) * t) * (a + (b - a) * t);
  }

  lemma ConvexGap(a: real, b: real, t: real)
    ensures (1.0 - t) * (a * a) + t * (b * b) - (a + (b - a) * t) * (a + (b - a) * t)
         == t * (1.0 - t) * ((b - a) * (b - a))
  {
    var d := b - a;
    assert b == a + d;
    assert b * b == a * a + 2.0 * (a * d) + d * d;
    assert (a + d * t) * (a + d * t) == a * a + 2.0 * (a * d) * t + (d * d) * (t * t);
  }

  lemma MixAtMost(a: real, b: real, t: real, limit: real)
    requires 0.0 <= t <= 1.0 && a <= limit && b <= limit
    ensures (1.0 - t) * a + t * b <= limit
  {
    assert (1.0 - t) * (limit - a) >= 0.0 && t * (limit - b) >= 0.0;
  }

  lemma MixAtLeast(a: real, b: real, t: real, limit: real)
    requires 0.0 <= t <= 1.0 && limit <= a && limit <= b
    ensures limit <= a + (b - a) * t
  {
    assert (1.0 - t) * (a - limit) >= 0.0 && t * (b - limit) >= 0.0;
  }

  lemma NormAtMost(norm: Vec -> real, v: Vec, radius: real)
    requires IsNorm(norm) && radius >= 0.0
    ensures norm(v) <= radius <==> Dot(v, v) <= radius * radius
  {
    if norm(v) <= radius {
      SquareGrows(norm(v), radius);
    }
    if Dot(v, v) <= radius * radius {
      SquareOrder(norm(v), radius);
    }
  }

  predicate IsMix(m: Vec, a: Vec, b: Vec, t: real) {
    m.x == a.x + (b.x - a.x) * t && m.y == a.y + (b.y - a.y) * t && m.z == a.z + (b.z - a.z) * t
  }

  lemma Combine(t: real, a1: real, a2: real, a3: real, b1: real, b2: real, b3: real,
                p1: real, p2: real, p3: real, limit: real)
    requires 0.0 <= t <= 1.0
    requires p1 <= (1.0 - t) * a1 + t * b1 && p2 <= (1.0 - t) * a2 + t * b2 && p3 <= (1.0 - t) * a3 + t * b3
    requires a1 + a2 + a3 <= limit && b1 + b2 + b3 <= limit
    ensures p1 + p2 + p3 <= limit
  {
    MixAtMost(a1 + a2 + a3, b1 + b2 + b3, t, limit);
    Distribute(1.0 - t, a1, a2, a3);
    Distribute(t, b1, b2, b3);
  }

  lemma MixSquares(a1: real, a2: real, a3: real, b1: real, b2: real, b3: real,
                   m1: real, m2: real, m3: real, t: real, limit: real)
    requires 0.0 <= t <= 1.0
    requires m1 == a1 + (b1 - a1) * t && m2 == a2 + (b2 - a2) * t && m3 == a3 + (b3 - a3) * t
    requires a1 * a1 + a2 * a2 + a3 * a3 <= limit && b1 * b1 + b2 * b2 + b3 * b3 <= limit
    ensures m1 * m1 + m2 * m2 + m3 * m3 <= limit
  {
    Convex(a1, b1, t, m1);
    Convex(a2, b2, t, m2);
    Convex(a3, b3, t, m3);
    Combine(t, a1 * a1, a2 * a2, a3 * a3, b1 * b1, b2 * b2, b3 * b3, m1 * m1, m2 * m2, m3 * m3, limit);
  }

  lemma MixLength(m: Vec, a: Vec, b: Vec, t: real, limit: real)
    requires 0.0 <= t <= 1.0 && IsMix(m, a, b, t)
    requires Dot(a, a) <= limit && Dot(b, b) <= limit
    ensures Dot(m, m) <= limit
  {
    MixSquares(a.x, a.y, a.z, b.x, b.y, b.z, m.x, m.y, m.z, t, limit);
  }

  lemma SegmentFrom(origin: Vec, value: Vec, center: Vec, t: real)
    ensures IsMix(
              Sub(Add(origin, Scale(Sub(value, origin), t)), center), Sub(origin, center), Sub(value, center), t)
  {
    Shift(origin.x, value.x, center.x, t);
    Shift(origin.y, value.y, center.y, t);
    Shift(origin.z, value.z, center.z, t);
  }

  lemma Shift(a: real, b: real, c: real, t: real)
    ensures a + (b - a) * t - c == (a - c) + ((b - c) - (a - c)) * t
  {
    assert (b - c) - (a - c) == b - a;
  }

  /** A ball is convex: a point between two of its points is in it. */
  lemma BallIsConvex(norm: Vec -> real, center: Vec, radius: real, origin: Vec, value: Vec, t: real, result: Vec)
    requires IsNorm(norm) && radius >= 0.0 && Between(t, value, origin, result)
    requires Distance(norm, origin, center) <= radius && Distance(norm, value, center) <= radius
    ensures Distance(norm, result, center) <= radius
  {
    var a, b, p := Sub(origin, center), Sub(value, center), Sub(result, center);
    SegmentFrom(origin, value, center, t);
    var limit := radius * radius;
    NormAtMost(norm, a, radius);
    NormAtMost(norm, b, radius);
    NormAtMost(norm, p, radius);
    MixLength(p, a, b, t, limit);
  }

  const ZERO := Vec(0.0, 0.0, 0.0)

  lemma NoDelta(v: Vec)
    ensures Sub(v, v) == ZERO
  {
  }

  lemma AddNothing(v: Vec)
    ensures Add(v, ZERO) == v
  {
    var Vec(x, y, z) := v;
  }

  lemma ScaleNothing(k: real)
    ensures Scale(ZERO, k) == ZERO
  {
  }

  lemma NormOfZero(norm: Vec -> real)
    requires IsNorm(norm)
    ensures norm(ZERO) == 0.0
  {
    SquareOrder(norm(ZERO), 0.0);
  }

  /** The origin itself is never moved. */
  lemma OriginStays(norm: Vec -> real, origin: Vec, maximum: real)
    requires IsNorm(norm) && maximum >= 0.0
    ensures LimitDistance(norm, origin, origin, maximum).0 == origin
  {
    NoDelta(origin);
    NormOfZero(norm);
  }
}
