/**
 * The vector arithmetic the navigation controller uses (the subset of
 * THREE.Vector3 it calls), the quadratic Bezier curve a drive follows and the
 * cubic easing applied to its progress.  Coordinates are real numbers: the
 * source's floating point rounding is not modelled.
 */
module Geometry {

  datatype Point = Point(x: real, y: real, z: real)

  /** The centre of the social hub, where the sentinel stop `redes` leads. */
  const Origin := Point(0.0, 0.0, 0.0)

  function Add(p: Point, q: Point): Point {
    Point(p.x + q.x, p.y + q.y, p.z + q.z)
  }

  function Sub(p: Point, q: Point): Point {
    Point(p.x - q.x, p.y - q.y, p.z - q.z)
  }

  function Scale(p: Point, k: real): Point {
    Point(k * p.x, k * p.y, k * p.z)
  }

  function SqLen(p: Point): real {
    p.x * p.x + p.y * p.y + p.z * p.z
  }

  function SqDist(p: Point, q: Point): real {
    SqLen(Sub(p, q))
  }

  function Min(a: real, b: real): real {
    if a <= b then a else b
  }

  function Max(a: real, b: real): real {
    if a >= b then a else b
  }

  /**
   * Vector3.normalize: divide by the vector's length, or by 1 when that length
   * is 0.  The length is passed in because the square root is not available.
   */
  function Normalize(v: Point, length: real): Point {
    Scale(v, 1.0 / (if length == 0.0 then 1.0 else length))
  }

  /** Vector3.lerp: the point a fraction `alpha` of the way from `p` to `q`. */
  function Lerp(p: Point, q: Point, alpha: real): Point {
    Add(p, Scale(Sub(q, p), alpha))
  }

  lemma SqLenScale(v: Point, k: real)
    ensures SqLen(Scale(v, k)) == k * k * SqLen(v)
  {
    calc {
      SqLen(Scale(v, k));
      (k * v.x) * (k * v.x) + (k * v.y) * (k * v.y) + (k * v.z) * (k * v.z);
      k * k * (v.x * v.x) + k * k * (v.y * v.y) + k * k * (v.z * v.z);
      k * k * SqLen(v);
    }
  }

  /** The Bernstein weights of the start, control and end points at parameter `t`. */
  function StartWeight(t: real): (w: real)
    ensures t == 0.0 ==> w == 1.0
    ensures t == 1.0 ==> w == 0.0
  {
    (1.0 - t) * (1.0 - t)
  }

  function ControlWeight(t: real): (w: real)
    ensures t == 0.0 || t == 1.0 ==> w == 0.0
  {
    2.0 * (1.0 - t) * t
  }

  function EndWeight(t: real): (w: real)
    ensures t == 0.0 ==> w == 0.0
    ensures t == 1.0 ==> w == 1.0
  {
    t * t
  }

  /** computeQuadBezier: the point at parameter `t` of the curve from `p0` to `p1` pulled towards `c`. */
  function QuadBezier(p0: Point, c: Point, p1: Point, t: real): (r: Point)
    ensures t == 0.0 ==> r == p0
    ensures t == 1.0 ==> r == p1
  {
    Add(Add(Scale(p0, StartWeight(t)), Scale(c, ControlWeight(t))), Scale(p1, EndWeight(t)))
  }

  /**
   * The three weights sum to one at every parameter, so a curve whose three
   * points coincide never leaves that point.
   */
  lemma QuadBezierConstant(p: Point, t: real)
    ensures QuadBezier(p, p, p, t) == p
  {
    var a, b, d := StartWeight(t), ControlWeight(t), EndWeight(t);
    assert a + b + d == 1.0;
    assert p.x * a + p.x * b + p.x * d == p.x * (a + b + d);
    assert p.y * a + p.y * b + p.y * d == p.y * (a + b + d);
    assert p.z * a + p.z * b + p.z * d == p.z * (a + b + d);
  }

  function Cube(x: real): real {
    x * x * x
  }

  lemma CubeFixesUnitEnds()
    ensures Cube(0.0) == 0.0 && Cube(1.0) == 1.0
  {
  }

  /**
   * easeInOutCubic: accelerates over the first half, decelerates over the
   * second; fixes 0, 1/2 and 1.
   */
  function EaseInOutCubic(t: real): (e: real)
    ensures t == 0.0 ==> e == 0.0
    ensures t == 0.5 ==> e == 0.5
    ensures t == 1.0 ==> e == 1.0
  {
    CubeFixesUnitEnds();
    if t < 0.5 then 4.0 * Cube(t) else 1.0 - Cube(-2.0 * t + 2.0) / 2.0
  }

  /** The easing is point-symmetric about (1/2, 1/2). */
  lemma EaseSymmetric(t: real)
    ensures EaseInOutCubic(1.0 - t) == 1.0 - EaseInOutCubic(t)
  {
    if t < 0.5 {
      assert -2.0 * (1.0 - t) + 2.0 == 2.0 * t;
      CubeDouble(t);
    } else if t > 0.5 {
      assert -2.0 * t + 2.0 == 2.0 * (1.0 - t);
      CubeDouble(1.0 - t);
    }
  }

  lemma CubeDouble(x: real)
    ensures Cube(2.0 * x) == 8.0 * Cube(x)
  {
    calc {
      Cube(2.0 * x);
      (2.0 * x) * (2.0 * x) * (2.0 * x);
      (4.0 * (x * x)) * (2.0 * x);
      8.0 * (x * x * x);
    }
  }

  lemma CubeMonotone(a: real, b: real)
    requires 0.0 <= a <= b
    ensures 0.0 <= Cube(a) <= Cube(b)
  {
    assert 0.0 <= a * a <= b * b by {
      assert a * a <= a * b <= b * b;
    }
    assert a * a * a <= b * b * a <= b * b * b;
  }

  /** On the unit interval the eased parameter stays in the unit interval. */
  lemma EaseInUnit(t: real)
    requires 0.0 <= t <= 1.0
    ensures 0.0 <= EaseInOutCubic(t) <= 1.0
  {
    if t < 0.5 {
      CubeMonotone(t, 0.5);
    } else {
      CubeMonotone(-2.0 * t + 2.0, 1.0);
    }
  }

  /** ... and it never moves backwards. */
  lemma EaseMonotone(s: real, t: real)
    requires 0.0 <= s <= t <= 1.0
    ensures EaseInOutCubic(s) <= EaseInOutCubic(t)
  {
    if t < 0.5 {
      CubeMonotone(s, t);
    } else if s >= 0.5 {
      CubeMonotone(-2.0 * t + 2.0, -2.0 * s + 2.0);
    } else {
      CubeMonotone(s, 0.5);
      CubeMonotone(-2.0 * t + 2.0, 1.0);
    }
  }
}
