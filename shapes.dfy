/** The local outlines each part computes once, in metres, with the midpoint of the rocket
    as origin (every axial coordinate has half the total length subtracted, so the nose tip
    sits at -total/2), and the per-frame fin instance outlines derived from them. */
module Shapes {
  import opened Geometry
  import opened Layering

  /** `np.linspace(start, stop, num)`: num equally spaced values from start to stop. */
  function Linspace(start: real, stop: real, num: nat): seq<real>
  {
    if num == 1 then [start]
    else seq(num, j requires 0 <= j < num => start + (j as real) * ((stop - start) / ((num - 1) as real)))
  }

  /** Python's `s[1:]`, which is empty for an empty list. */
  function Tail<T>(s: seq<T>): seq<T>
  {
    if |s| == 0 then [] else s[1..]
  }

  /** Python's `s[::-1]`. */
  function Reverse<T>(s: seq<T>): seq<T>
  {
    seq(|s|, i requires 0 <= i < |s| => s[|s| - 1 - i])
  }

  function Min(a: nat, b: nat): nat { if a <= b then a else b }

  /** `[np.array([r, a]) for r, a in zip(radii, axial)]`, with `-r` when `mirrored`. */
  function ZipPoints(radii: seq<real>, axial: seq<real>, mirrored: bool): seq<Vec>
  {
    seq(Min(|radii|, |axial|), j requires 0 <= j < Min(|radii|, |axial|) =>
      Vec(if mirrored then -radii[j] else radii[j], axial[j]))
  }

  /** The axial positions of the samples after the tip: `np.linspace(0, noseLength, n)[1:]`
      shifted to the midpoint origin. */
  function NoseAxials(n: nat, noseLength: real, totalLength: real): seq<real>
  {
    var lin := Tail(Linspace(0.0, noseLength, n));
    seq(|lin|, j requires 0 <= j < |lin| => lin[j] - totalLength / 2.0)
  }

  /** The nose outline: the tip, then the samples after the tip down one side, then the
      same samples back up the mirrored side. */
  function NosePoints(radii: seq<real>, noseLength: real, totalLength: real): seq<Vec>
  {
    var axial := NoseAxials(|radii|, noseLength, totalLength);
    var rest := Tail(radii);
    [Vec(0.0, -totalLength / 2.0)] + ZipPoints(rest, axial, false) + ZipPoints(Reverse(rest), Reverse(axial), true)
  }

  /** Axial position of nose sample m of n: equal steps from the tip to the nose length. */
  function NoseAxial(m: nat, n: nat, noseLength: real, totalLength: real): real
    requires n >= 2
  {
    (m as real) * (noseLength / ((n - 1) as real)) - totalLength / 2.0
  }

  lemma NoseAxialsAt(n: nat, noseLength: real, totalLength: real)
    ensures n >= 2 ==> |NoseAxials(n, noseLength, totalLength)| == n - 1
    ensures n >= 2 ==> forall j :: 0 <= j < n - 1 ==>
      NoseAxials(n, noseLength, totalLength)[j] == NoseAxial(j + 1, n, noseLength, totalLength)
    ensures n < 2 ==> NoseAxials(n, noseLength, totalLength) == []
  {
    var lin := Linspace(0.0, noseLength, n);
    if n >= 2 {
      assert |lin| == n;
      forall j | 0 <= j < n - 1
        ensures NoseAxials(n, noseLength, totalLength)[j] == NoseAxial(j + 1, n, noseLength, totalLength)
      {
        assert Tail(lin)[j] == lin[j + 1];
      }
    }
  }

  /** The last sample sits at the end of the nose. */
  lemma NoseAxialLast(n: nat, noseLength: real, totalLength: real)
    requires n >= 2
    ensures NoseAxial(n - 1, n, noseLength, totalLength) == noseLength - totalLength / 2.0
  {
    var d := (n - 1) as real;
    assert d * (noseLength / d) == noseLength;
  }

  /** For n radius samples the nose has 2n - 1 vertices: the tip (0, -total/2) first, vertex m
      (1 <= m <= n - 1) at radius m on the right, and vertex 2n - 1 - m its mirror image on
      the left, at equally spaced axial positions ending at noseLength - total/2. With no
      samples only the tip remains. */
  lemma NoseOutline(radii: seq<real>, noseLength: real, totalLength: real)
    ensures var p := NosePoints(radii, noseLength, totalLength);
      && |p| == (if |radii| == 0 then 1 else 2 * |radii| - 1)
      && p[0] == Vec(0.0, -totalLength / 2.0)
      && (|radii| >= 2 ==>
            && p[|radii| - 1].y == noseLength - totalLength / 2.0
            && forall m :: 1 <= m <= |radii| - 1 ==>
                 && p[m] == Vec(radii[m], NoseAxial(m, |radii|, noseLength, totalLength))
                 && p[2 * |radii| - 1 - m] == Vec(-radii[m], p[m].y))
  {
    var n := |radii|;
    var axial := NoseAxials(n, noseLength, totalLength);
    var rest := Tail(radii);
    var right := ZipPoints(rest, axial, false);
    var left := ZipPoints(Reverse(rest), Reverse(axial), true);
    var p := NosePoints(radii, noseLength, totalLength);
    assert p == [Vec(0.0, -totalLength / 2.0)] + right + left;
    NoseAxialsAt(n, noseLength, totalLength);
    if n >= 2 {
      assert |rest| == n - 1 && |right| == n - 1 && |left| == n - 1;
      forall m | 1 <= m <= n - 1
        ensures p[m] == Vec(radii[m], NoseAxial(m, n, noseLength, totalLength))
        ensures p[2 * n - 1 - m] == Vec(-radii[m], p[m].y)
      {
        assert p[m] == right[m - 1];
        assert rest[m - 1] == radii[m];
        assert p[2 * n - 1 - m] == left[n - 1 - m];
        assert Reverse(rest)[n - 1 - m] == rest[m - 1];
        assert Reverse(axial)[n - 1 - m] == axial[m - 1];
      }
      NoseAxialLast(n, noseLength, totalLength);
    } else {
      assert |right| == 0 && |left| == 0;
    }
  }

  /** The body tube as the four corners of a rectangle, in drawing order. */
  function BodyPoints(position: real, length: real, radius: real, totalLength: real): (r: seq<Vec>)
    ensures |r| == 4
    // radial extent: corners 0 and 1 on the right wall, 2 and 3 on the mirrored left wall
    ensures r[0].x == r[1].x == radius && r[2].x == r[3].x == -radius
    // axial extent: the front edge at position - total/2, the rear edge one tube length behind
    ensures r[0].y == r[3].y == position - totalLength / 2.0
    ensures r[1].y == r[2].y && r[1].y - r[0].y == length
  {
    var half := totalLength / 2.0;
    [Vec(radius, position - half), Vec(radius, position + length - half),
     Vec(-radius, position + length - half), Vec(-radius, position - half)]
  }

  /** The attachment offset of a fin: the start point with its axes swapped into
      (radial, axial) order, moved to the midpoint origin. */
  function FinOffset(start: Vec, totalLength: real): Vec
  {
    Sub(Swap(start), Vec(0.0, totalLength / 2.0))
  }

  /** The fin outline in the renderer's (radial, axial) convention: each outline point has its
      axes swapped and the attachment offset added. The parent tube's position is not an
      argument, because it has no effect. */
  function FinPoints(start: Vec, shape: seq<Vec>, totalLength: real): seq<Vec>
  {
    seq(|shape|, k requires 0 <= k < |shape| => Add(Swap(shape[k]), FinOffset(start, totalLength)))
  }

  /** The inverse conversion: from stored fin points back to the outline in the external
      (axial, radial) convention. */
  function FinShapeOf(points: seq<Vec>, start: Vec, totalLength: real): seq<Vec>
  {
    seq(|points|, k requires 0 <= k < |points| => Swap(Sub(points[k], FinOffset(start, totalLength))))
  }

  /** Point k of a fin is (shape[k].y + start.y, shape[k].x + start.x - total/2); the outline
      keeps its length. */
  lemma FinPointsAt(start: Vec, shape: seq<Vec>, totalLength: real, k: int)
    requires 0 <= k < |shape|
    ensures |FinPoints(start, shape, totalLength)| == |shape|
    ensures FinPoints(start, shape, totalLength)[k]
         == Vec(shape[k].y + start.y, shape[k].x + start.x - totalLength / 2.0)
  {
  }

  /** The axis conversion loses nothing: it is undone by `FinShapeOf`, in both directions. */
  lemma FinPointsRoundTrip(start: Vec, shape: seq<Vec>, points: seq<Vec>, totalLength: real)
    ensures FinShapeOf(FinPoints(start, shape, totalLength), start, totalLength) == shape
    ensures FinPoints(start, FinShapeOf(points, start, totalLength), totalLength) == points
  {
    var a := FinShapeOf(FinPoints(start, shape, totalLength), start, totalLength);
    forall k | 0 <= k < |shape| ensures a[k] == shape[k] {
      assert FinPoints(start, shape, totalLength)[k] == Add(Swap(shape[k]), FinOffset(start, totalLength));
    }
    var b := FinPoints(start, FinShapeOf(points, start, totalLength), totalLength);
    forall k | 0 <= k < |points| ensures b[k] == points[k] {
      assert FinShapeOf(points, start, totalLength)[k] == Swap(Sub(points[k], FinOffset(start, totalLength)));
    }
  }

  /** `point * np.array([c, 1])`: the radial coordinate multiplied by `c`, the axial one by 1. */
  function Foreshorten(p: Vec, c: real): Vec
  {
    Vec(p.x * c, p.y * 1.0)
  }

  /** One fin instance: each point foreshortened by `c`, the cosine of the instance's
      azimuth, then projected. */
  function FinInstance(points: seq<Vec>, c: real, m: Mat2, scale: real, pos: Vec): seq<Vec>
  {
    seq(|points|, k requires 0 <= k < |points| => Project(Foreshorten(points[k], c), m, scale, pos))
  }

  /** All n instances of a fin set for a roll of b radians, in index order. */
  function FinPolygons(points: seq<Vec>, n: nat, b: real, m: Mat2, scale: real, pos: Vec,
                       cos: real -> real, pi: real): seq<seq<Vec>>
    requires n >= 1
  {
    seq(n, i requires 0 <= i < n => FinInstance(points, cos(Azimuth(i, n, b, pi)), m, scale, pos))
  }

  /** There are n instances of |points| vertices each, and vertex k of instance i is the point
      with its radial coordinate scaled by cos(2πi/n + b), rotated, scaled and moved. */
  lemma FinPolygonsAt(points: seq<Vec>, n: nat, b: real, m: Mat2, scale: real, pos: Vec,
                      cos: real -> real, pi: real, i: int, k: int)
    requires n >= 1 && 0 <= i < n && 0 <= k < |points|
    ensures var r := FinPolygons(points, n, b, m, scale, pos, cos, pi);
      && |r| == n && |r[i]| == |points|
      && r[i][k] == Project(Vec(points[k].x * cos(2.0 * pi / (n as real) * (i as real) + b), points[k].y), m, scale, pos)
  {
    var r := FinPolygons(points, n, b, m, scale, pos, cos, pi);
    var c := cos(Azimuth(i, n, b, pi));
    assert r[i] == FinInstance(points, c, m, scale, pos);
    assert r[i][k] == Project(Foreshorten(points[k], c), m, scale, pos);
  }

  /** With cosine 1, the rotation built for a pitch of cosine 1 and sine 0, unit scale and a
      zero centre an instance reproduces the stored points unchanged. */
  lemma FinInstanceIdentity(points: seq<Vec>)
    ensures FinInstance(points, 1.0, Rotation(1.0, 0.0), 1.0, Origin) == points
  {
    var r := FinInstance(points, 1.0, Rotation(1.0, 0.0), 1.0, Origin);
    forall k | 0 <= k < |points| ensures r[k] == points[k] {
      assert r[k] == Project(Foreshorten(points[k], 1.0), Rotation(1.0, 0.0), 1.0, Origin);
    }
  }

  /** An instance seen edge-on (cosine 0) collapses onto the projected rocket axis: every
      vertex is the projection of its axial coordinate alone. */
  lemma FinInstanceEdgeOn(points: seq<Vec>, m: Mat2, scale: real, pos: Vec, k: int)
    requires 0 <= k < |points|
    ensures FinInstance(points, 0.0, m, scale, pos)[k] == Project(Vec(0.0, points[k].y), m, scale, pos)
  {
    assert FinInstance(points, 0.0, m, scale, pos)[k] == Project(Foreshorten(points[k], 0.0), m, scale, pos);
  }

  /** Construction and projection together: the attachment offset is added before the cosine
      scaling, so the radial offset start.y is foreshortened along with the outline. */
  lemma FinVertexFromOutline(start: Vec, shape: seq<Vec>, totalLength: real, c: real,
                             m: Mat2, scale: real, pos: Vec, k: int)
    requires 0 <= k < |shape|
    ensures |FinInstance(FinPoints(start, shape, totalLength), c, m, scale, pos)| == |shape|
    ensures FinInstance(FinPoints(start, shape, totalLength), c, m, scale, pos)[k]
         == Project(Vec((shape[k].y + start.y) * c, shape[k].x + start.x - totalLength / 2.0), m, scale, pos)
  {
    var p := FinPoints(start, shape, totalLength);
    FinPointsAt(start, shape, totalLength, k);
    assert FinInstance(p, c, m, scale, pos)[k] == Project(Foreshorten(p[k], c), m, scale, pos);
  }

  /** Projection keeps the body a parallelogram: opposite edges of the projected rectangle
      are equal vectors, whatever the rotation, scale and centre. */
  lemma BodyProjectionIsParallelogram(position: real, length: real, radius: real, totalLength: real,
                                      m: Mat2, scale: real, pos: Vec)
    ensures var q := ProjectAll(BodyPoints(position, length, radius, totalLength), m, scale, pos);
      && |q| == 4
      && Sub(q[1], q[0]) == Sub(q[2], q[3])
      && Sub(q[3], q[0]) == Sub(q[2], q[1])
  {
    var r := BodyPoints(position, length, radius, totalLength);
    var q := ProjectAll(r, m, scale, pos);
    var e1 := Sub(r[1], r[0]);
    var e2 := Sub(r[3], r[0]);
    assert r[1] == Add(r[0], e1) && r[2] == Add(r[3], e1);
    assert r[3] == Add(r[0], e2) && r[2] == Add(r[1], e2);
    ProjectAffine(r[0], e1, m, scale, pos);
    ProjectAffine(r[3], e1, m, scale, pos);
    ProjectAffine(r[0], e2, m, scale, pos);
    ProjectAffine(r[1], e2, m, scale, pos);
    assert q[0] == Project(r[0], m, scale, pos) && q[1] == Project(r[1], m, scale, pos);
    assert q[2] == Project(r[2], m, scale, pos) && q[3] == Project(r[3], m, scale, pos);
  }
}
