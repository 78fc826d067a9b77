/** Plane geometry shared by every part of the silhouette: points, 2x2 matrices and the
    affine projection that takes a local point in metres to a pixel on the screen. */
module Geometry {

  /** A point or a vector. For rocket geometry `x` is the radial axis and `y` the
      longitudinal (axial) axis; after projection both are pixels. */
  datatype Vec = Vec(x: real, y: real)

  const Origin := Vec(0.0, 0.0)

  function Add(p: Vec, q: Vec): Vec { Vec(p.x + q.x, p.y + q.y) }

  function Sub(p: Vec, q: Vec): Vec { Vec(p.x - q.x, p.y - q.y) }

  function Mul(p: Vec, k: real): Vec { Vec(p.x * k, p.y * k) }

  /** Exchanges the two coordinates (`point[::-1]` on a 2-element array). */
  function Swap(p: Vec): Vec { Vec(p.y, p.x) }

  /** A row-major 2x2 matrix [[a, b], [c, d]]. */
  datatype Mat2 = Mat2(a: real, b: real, c: real, d: real)

  /** Matrix-vector product, `np.dot(m, p)`. */
  function Apply(m: Mat2, p: Vec): Vec { Vec(m.a * p.x + m.b * p.y, m.c * p.x + m.d * p.y) }

  /** The counter-clockwise rotation [[cos, -sin], [sin, cos]] of an angle whose cosine and
      sine are given. */
  function Rotation(cos: real, sin: real): Mat2 { Mat2(cos, -sin, sin, cos) }

  /** `np.dot(m, p) * scale + pos`: rotate, scale, then move to the pixel centre. */
  function Project(p: Vec, m: Mat2, scale: real, pos: Vec): Vec
  {
    Add(Mul(Apply(m, p), scale), pos)
  }

  /** The list comprehension that projects every stored point, in order. */
  function ProjectAll(ps: seq<Vec>, m: Mat2, scale: real, pos: Vec): seq<Vec>
  {
    seq(|ps|, k requires 0 <= k < |ps| => Project(ps[k], m, scale, pos))
  }

  /** Trigonometry is not modelled: the caller supplies pi and the cosine and sine
      functions, which the model treats as uninterpreted. */
  datatype Trig = Trig(pi: real, cos: real -> real, sin: real -> real)

  /** `np.radians`: degrees to radians. */
  function Radians(deg: real, pi: real): real { deg * pi / 180.0 }

  /** Python's float `x % m` for a positive modulus: the remainder takes the sign of `m`. */
  function FMod(x: real, m: real): real
    requires m > 0.0
  {
    x - m * ((x / m).Floor as real)
  }

  /** The remainder lies in [0, m). */
  lemma FModRange(x: real, m: real)
    requires m > 0.0
    ensures 0.0 <= FMod(x, m) < m
  {
    RemainderBounds(x, m, (x / m).Floor as real);
  }

  /** For any f with f <= x / m < f + 1, the remainder x - m * f lies in [0, m). */
  lemma RemainderBounds(x: real, m: real, f: real)
    requires m > 0.0 && f <= x / m < f + 1.0
    ensures 0.0 <= x - m * f < m
  {
    var q := x / m;
    var b := q - f;
    var p := m * b;
    assert x == m * q;
    assert x - m * f == p;
    FractionBounds(m, b);
    assert p < m;
  }

  /** For a > 0 and 0 <= b < 1, 0 <= a * b < a. */
  lemma FractionBounds(a: real, b: real)
    requires a > 0.0 && 0.0 <= b < 1.0
    ensures 0.0 <= a * b < a
  {
    assert a - a * b == a * (1.0 - b);
  }

  lemma MulPositive(a: real, b: real)
    requires a > 0.0 && b >= 0.0
    ensures a * b >= 0.0
    ensures b > 0.0 ==> a * b > 0.0
  {
  }

  /** A value already in [0, m) is its own remainder. */
  lemma FModOfSmall(x: real, m: real)
    requires m > 0.0 && 0.0 <= x < m
    ensures FMod(x, m) == x
  {
    var q := x / m;
    assert x == m * q;
    if q < 0.0 {
      MulPositive(m, -q);
    }
    if q >= 1.0 {
      MulPositive(m, q - 1.0);
    }
    assert q.Floor == 0;
  }

  /** Adding any whole number of periods leaves the remainder unchanged. */
  lemma FModPeriodic(x: real, m: real, k: int)
    requires m > 0.0
    ensures FMod(x + m * (k as real), m) == FMod(x, m)
  {
    var q := x / m;
    var y := x + m * (k as real);
    assert x == m * q;
    assert y == m * (q + k as real);
    assert y / m == q + k as real;
    var fl := q.Floor;
    assert (q + k as real).Floor == fl + k;
    assert FMod(y, m) == y - m * ((fl + k) as real);
    assert m * ((fl + k) as real) == m * (fl as real) + m * (k as real);
    assert FMod(x, m) == x - m * (fl as real);
  }

  /** Every projected vertex is the rotated, scaled point moved by the pixel centre, in the
      same order as the stored points. */
  lemma ProjectAllAt(ps: seq<Vec>, m: Mat2, scale: real, pos: Vec, k: int)
    requires 0 <= k < |ps|
    ensures |ProjectAll(ps, m, scale, pos)| == |ps|
    ensures ProjectAll(ps, m, scale, pos)[k]
         == Vec((m.a * ps[k].x + m.b * ps[k].y) * scale + pos.x,
                (m.c * ps[k].x + m.d * ps[k].y) * scale + pos.y)
  {
    assert ProjectAll(ps, m, scale, pos)[k] == Project(ps[k], m, scale, pos);
  }

  /** With the rotation built for a pitch of cosine 1 and sine 0, unit scale and a zero
      centre the projection reproduces its input. */
  lemma ProjectAllIdentity(ps: seq<Vec>)
    ensures ProjectAll(ps, Rotation(1.0, 0.0), 1.0, Origin) == ps
  {
    var r := ProjectAll(ps, Rotation(1.0, 0.0), 1.0, Origin);
    forall k | 0 <= k < |ps| ensures r[k] == ps[k] {
      assert r[k] == Project(ps[k], Rotation(1.0, 0.0), 1.0, Origin);
    }
  }

  /** The projection is affine: a sum of offsets projects to the sum of the projected offsets,
      and the pixel centre is added exactly once. */
  lemma ProjectAffine(p: Vec, q: Vec, m: Mat2, scale: real, pos: Vec)
    ensures Project(Add(p, q), m, scale, pos)
         == Add(Project(p, m, scale, pos), Project(q, m, scale, Origin))
  {
    var a, b, c, d := m.a, m.b, m.c, m.d;
    assert (a * (p.x + q.x) + b * (p.y + q.y)) * scale
        == (a * p.x + b * p.y) * scale + (a * q.x + b * q.y) * scale;
    assert (c * (p.x + q.x) + d * (p.y + q.y)) * scale
        == (c * p.x + d * p.y) * scale + (c * q.x + d * q.y) * scale;
  }

  /** Multiplying the scale by k multiplies every vertex's offset from the centre by k. */
  lemma ProjectScaling(p: Vec, m: Mat2, scale: real, k: real, pos: Vec)
    ensures Sub(Project(p, m, scale * k, pos), pos) == Mul(Sub(Project(p, m, scale, pos), pos), k)
  {
    var u := m.a * p.x + m.b * p.y;
    var v := m.c * p.x + m.d * p.y;
    assert u * (scale * k) == (u * scale) * k;
    assert v * (scale * k) == (v * scale) * k;
  }
}
