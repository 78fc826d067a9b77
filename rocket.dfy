/** The rocket's parts as objects. Each part stores its local outline once; every frame
    `Update` overwrites its cached pixel polygon(s) wholesale, and `Draw` emits polygon calls
    on a `Screen`. The body tube draws its fins' backward instances, then itself, then the
    forward instances, which is what makes the fins appear to pass behind and in front of
    the tube as the rocket rolls. */
module Rocket {
  import opened Geometry
  import opened Canvas
  import opened Layering
  import opened Shapes

  /** The window's size in pixels, as the display reports it. */
  datatype WindowSize = WindowSize(width: int, height: int)

  /** Pixels per metre for one frame: window height over rocket length, times the drawing-size
      fraction, times the cosine of the yaw (the yaw only shrinks, it never rotates). */
  function FrameScale(windowHeight: int, length: real, drawingSize: real, yawDeg: real, trig: Trig): real
    requires length != 0.0
  {
    (windowHeight as real) / length * drawingSize * trig.cos(Radians(yawDeg, trig.pi))
  }

  /** The pitch rotation shared by every part. */
  function FrameRotation(pitchDeg: real, trig: Trig): Mat2
  {
    Rotation(trig.cos(Radians(pitchDeg, trig.pi)), trig.sin(Radians(pitchDeg, trig.pi)))
  }

  /** The rocket's pixel centre: the window size times the requested fractions. */
  function FrameCentre(window: WindowSize, frac: Vec): Vec
  {
    Vec((window.width as real) * frac.x, (window.height as real) * frac.y)
  }

  /** Scaling the drawing-size fraction by k scales every projected vertex's offset from the
      centre by k, all else fixed. */
  lemma DrawingSizeScalesOffsets(p: Vec, m: Mat2, windowHeight: int, length: real, drawingSize: real,
                                 k: real, yawDeg: real, trig: Trig, pos: Vec)
    requires length != 0.0
    ensures Sub(Project(p, m, FrameScale(windowHeight, length, drawingSize * k, yawDeg, trig), pos), pos)
         == Mul(Sub(Project(p, m, FrameScale(windowHeight, length, drawingSize, yawDeg, trig), pos), pos), k)
  {
    var base := (windowHeight as real) / length;
    var c := trig.cos(Radians(yawDeg, trig.pi));
    assert FrameScale(windowHeight, length, drawingSize * k, yawDeg, trig)
        == FrameScale(windowHeight, length, drawingSize, yawDeg, trig) * k by {
      assert base * (drawingSize * k) * c == (base * drawingSize * c) * k;
    }
    ProjectScaling(p, m, FrameScale(windowHeight, length, drawingSize, yawDeg, trig), k, pos);
  }

  /** The roll reaches a fin already in radians and is converted once more, so the azimuth
      offset of every fin instance is the roll in degrees times (π/180)². */
  lemma FinRollConvertedTwice(rollDeg: real, pi: real)
    ensures Radians(Radians(rollDeg, pi), pi) == rollDeg * (pi / 180.0) * (pi / 180.0)
  {
    assert rollDeg * pi / 180.0 * pi / 180.0 == rollDeg * (pi / 180.0) * (pi / 180.0);
  }

  /** Because of the second conversion, the fin flags repeat when the roll argument changes
      by 64800·k/π degrees, the span that moves the azimuth offset by k whole turns. */
  lemma FinFlagsRollPeriod(n: nat, rollDeg: real, k: int, pi: real)
    requires n >= 1 && pi > 0.0
    ensures ZOrder(n, Radians(Radians(rollDeg + 64800.0 * (k as real) / pi, pi), pi), pi)
         == ZOrder(n, Radians(Radians(rollDeg, pi), pi), pi)
  {
    var u := pi / 180.0;
    var w := u * u;
    var span := 64800.0 * (k as real) / pi;
    var b := Radians(Radians(rollDeg, pi), pi);
    var shifted := Radians(Radians(rollDeg + span, pi), pi);
    FinRollConvertedTwice(rollDeg, pi);
    FinRollConvertedTwice(rollDeg + span, pi);
    assert b == rollDeg * w;
    assert shifted == (rollDeg + span) * w;
    assert span * pi == 64800.0 * (k as real);
    assert w == pi * pi / 32400.0;
    assert span * w == 2.0 * pi * (k as real) by {
      assert span * w == (span * pi) * pi / 32400.0;
    }
    assert shifted == b + 2.0 * pi * (k as real);
    ZOrderPeriodic(n, b, pi, k);
  }

  /** A whole turn of the roll argument does not bring the fins back. With π between 3.14
      and 3.15, a single fin at roll 0 is in front of the tube, yet after 31 whole turns
      (11160°) it is behind it. */
  lemma WholeTurnsOfRollMoveFins(pi: real)
    requires 3.14 < pi < 3.15
    ensures ZOrder(1, Radians(Radians(0.0, pi), pi), pi) == [true]
    ensures ZOrder(1, Radians(Radians(360.0 * 31.0, pi), pi), pi) == [false]
  {
    var b0 := Radians(Radians(0.0, pi), pi);
    assert b0 == 0.0;
    assert Azimuth(0, 1, b0, pi) == 0.0;
    IsForwardInFirstTurn(0.0, pi);
    var b1 := Radians(Radians(360.0 * 31.0, pi), pi);
    var t := 31.0 * pi / 90.0;
    assert b1 == pi * t;
    assert 1.0 < t < 2.0;
    MulPositive(pi, t - 1.0);
    MulPositive(pi, 2.0 - t);
    assert pi < b1 < 2.0 * pi;
    assert Azimuth(0, 1, b1, pi) == b1;
    IsForwardInFirstTurn(b1, pi);
  }

  class Nose {
    const nosePoints: seq<Vec>
    var polygon: seq<Vec>

    constructor (radii: seq<real>, noseLength: real, totalLength: real)
      ensures nosePoints == NosePoints(radii, noseLength, totalLength)
      ensures polygon == []
    {
      nosePoints := NosePoints(radii, noseLength, totalLength);
      polygon := [];
    }

    /** Rotates every stored point, then scales it and moves it to the pixel centre. */
    method Update(pos: Vec, scale: real, rot: Mat2)
      modifies this
      ensures polygon == ProjectAll(nosePoints, rot, scale, pos)
    {
      var rotated := seq(|nosePoints|, k requires 0 <= k < |nosePoints| => Apply(rot, nosePoints[k]));
      polygon := seq(|rotated|, k requires 0 <= k < |rotated| => Add(Mul(rotated[k], scale), pos));
    }

    method Draw(screen: Screen)
      modifies screen
      ensures screen.calls == old(screen.calls) + Outlined(White, polygon)
    {
      screen.DrawOutlined(White, polygon);
    }
  }

  class Fin {
    const nFin: nat
    const shape: seq<Vec>
    const points: seq<Vec>
    var polygons: seq<seq<Vec>>
    var zOrder: seq<bool>

    /** The cached polygons and flags are those of the frame given by the arguments; `beta`
        is the roll as the body passes it on, which `Update` converts to radians once more. */
    ghost predicate Projected(pos: Vec, scale: real, rot: Mat2, beta: real, trig: Trig)
      reads this
      requires nFin >= 1 && trig.pi > 0.0
    {
      && polygons == FinPolygons(points, nFin, Radians(beta, trig.pi), rot, scale, pos, trig.cos, trig.pi)
      && zOrder == ZOrder(nFin, Radians(beta, trig.pi), trig.pi)
    }

    /** The parent tube's position is accepted and ignored. */
    constructor (parentsPosition: Vec, startPoint: Vec, shape: seq<Vec>, nFins: nat, totalLength: real)
      ensures this.shape == shape && nFin == nFins
      ensures points == FinPoints(startPoint, shape, totalLength)
      ensures polygons == [] && zOrder == []
    {
      this.shape := shape;
      nFin := nFins;
      points := FinPoints(startPoint, shape, totalLength);
      polygons := [];
      zOrder := [];
    }

    method Update(pos: Vec, scale: real, rot: Mat2, beta: real, trig: Trig)
      requires nFin >= 1 && trig.pi > 0.0
      modifies this
      ensures |polygons| == |zOrder| == nFin
      ensures Projected(pos, scale, rot, beta, trig)
    {
      var b := Radians(beta, trig.pi);
      polygons := FinPolygons(points, nFin, b, rot, scale, pos, trig.cos, trig.pi);
      zOrder := ZOrder(nFin, b, trig.pi);
    }

    /** Draws the instances flagged backward, in index order. */
    method DrawBackward(screen: Screen)
      modifies screen
      ensures screen.calls == old(screen.calls) + OutlinedAll(Blue, Selected(polygons, zOrder, false))
    {
      DrawSelected(screen, polygons, zOrder, false);
    }

    /** Draws the instances flagged forward, in index order. */
    method DrawForward(screen: Screen)
      modifies screen
      ensures screen.calls == old(screen.calls) + OutlinedAll(Blue, Selected(polygons, zOrder, true))
    {
      DrawSelected(screen, polygons, zOrder, true);
    }
  }

  /** The loop both fin passes share: over `zip(polygons, z_order)`, draw the instances whose
      flag is `forward`. It stops at the end of the shorter list. */
  method DrawSelected(screen: Screen, polys: seq<seq<Vec>>, flags: seq<bool>, forward: bool)
    modifies screen
    ensures screen.calls == old(screen.calls) + OutlinedAll(Blue, Selected(polys, flags, forward))
  {
    var n := if |polys| <= |flags| then |polys| else |flags|;
    var i := 0;
    while i < n
      invariant 0 <= i <= n
      invariant screen.calls == old(screen.calls) + OutlinedAll(Blue, Selected(polys[..i], flags[..i], forward))
    {
      PassSnoc(old(screen.calls), polys, flags, forward, i);
      if flags[i] == forward {
        screen.DrawOutlined(Blue, polys[i]);
      }
      i := i + 1;
    }
    SelectedCommonPrefix(polys, flags, forward, n);
  }

  /** One more instance of a fin pass emits its pair of calls, after whatever the screen
      already holds, exactly when its flag matches. */
  lemma PassSnoc(before: seq<DrawCall>, polys: seq<seq<Vec>>, flags: seq<bool>, forward: bool, i: nat)
    requires i < |polys| && i < |flags|
    ensures before + OutlinedAll(Blue, Selected(polys[..i + 1], flags[..i + 1], forward))
         == before + OutlinedAll(Blue, Selected(polys[..i], flags[..i], forward))
            + (if flags[i] == forward then Outlined(Blue, polys[i]) else [])
  {
    var done := Selected(polys[..i], flags[..i], forward);
    SelectedSnoc(polys, flags, forward, i);
    if flags[i] == forward {
      OutlinedAllSnoc(Blue, done, polys[i]);
    } else {
      assert Selected(polys[..i + 1], flags[..i + 1], forward) == done + [] == done;
    }
  }

  /** The calls one pass over the first n fins of a list makes: each fin's selected instances
      in turn. */
  ghost function FinsPass(fins: seq<Fin>, n: nat, forward: bool): seq<DrawCall>
    reads fins
    requires n <= |fins|
  {
    if n == 0 then []
    else FinsPass(fins, n - 1, forward) + OutlinedAll(Blue, Selected(fins[n - 1].polygons, fins[n - 1].zOrder, forward))
  }

  class Body {
    const points: seq<Vec>
    var fins: seq<Fin>
    var polygons: seq<Vec>

    constructor (position: real, length: real, radius: real, totalLength: real)
      ensures points == BodyPoints(position, length, radius, totalLength)
      ensures fins == [] && polygons == []
    {
      points := BodyPoints(position, length, radius, totalLength);
      fins := [];
      polygons := [];
    }

    /** Appends a fin set to the tube, as the loader does for each fin component it finds. */
    method AttachFin(fin: Fin)
      modifies this
      ensures fins == old(fins) + [fin]
      ensures polygons == old(polygons)
    {
      fins := fins + [fin];
    }

    /** What one `Draw` emits: every fin's backward instances, the tube, then every fin's
        forward instances. */
    ghost function DrawnCalls(): seq<DrawCall>
      reads this, fins
    {
      FinsPass(fins, |fins|, false) + Outlined(White, polygons) + FinsPass(fins, |fins|, true)
    }

    /** Projects the tube's corners, then passes the same frame and the roll on to every fin. */
    method Update(pos: Vec, scale: real, rot: Mat2, beta: real, trig: Trig)
      requires trig.pi > 0.0
      requires forall f :: f in fins ==> f.nFin >= 1
      modifies this, fins
      ensures fins == old(fins)
      ensures polygons == ProjectAll(points, rot, scale, pos)
      ensures forall f :: f in fins ==> f.Projected(pos, scale, rot, beta, trig)
    {
      var rotated := seq(|points|, k requires 0 <= k < |points| => Apply(rot, points[k]));
      polygons := seq(|rotated|, k requires 0 <= k < |rotated| => Add(Mul(rotated[k], scale), pos));
      var i := 0;
      while i < |fins|
        invariant 0 <= i <= |fins|
        invariant fins == old(fins)
        invariant polygons == ProjectAll(points, rot, scale, pos)
        invariant forall j :: 0 <= j < i ==> fins[j].Projected(pos, scale, rot, beta, trig)
      {
        fins[i].Update(pos, scale, rot, beta, trig);
        i := i + 1;
      }
    }

    method Draw(screen: Screen)
      modifies screen
      ensures screen.calls == old(screen.calls + DrawnCalls())
    {
      var fs := fins;
      DrawFins(fs, screen, false);
      screen.DrawOutlined(White, polygons);
      DrawFins(fs, screen, true);
    }
  }

  /** One of the two loops of a body tube's draw: every fin's backward (or forward) pass.
      Drawing changes nothing but the screen, so the calls are those of the fins as they were
      on entry. */
  method DrawFins(fins: seq<Fin>, screen: Screen, forward: bool)
    modifies screen
    ensures screen.calls == old(screen.calls + FinsPass(fins, |fins|, forward))
  {
    var i := 0;
    while i < |fins|
      invariant 0 <= i <= |fins|
      invariant screen.calls == old(screen.calls + FinsPass(fins, i, forward))
    {
      var fin := fins[i];
      AppendAssoc(old(screen.calls), old(FinsPass(fins, i, forward)),
                  OutlinedAll(Blue, Selected(fin.polygons, fin.zOrder, forward)));
      if forward {
        fin.DrawForward(screen);
      } else {
        fin.DrawBackward(screen);
      }
      assert unchanged(fin);
      i := i + 1;
    }
  }

  /** Every fin attached to one of the given body tubes. */
  ghost function FinsOf(bodies: seq<Body>): set<Fin>
    reads bodies
  {
    set b, f | b in bodies && f in b.fins :: f
  }

  /** The calls `Draw` makes for the first n body tubes of a list, one tube after another. */
  ghost function BodiesPass(bodies: seq<Body>, n: nat): seq<DrawCall>
    reads bodies, FinsOf(bodies)
    requires n <= |bodies|
  {
    if n == 0 then []
    else
      var last := bodies[n - 1];
      assert last in bodies;
      assert forall f :: f in last.fins ==> f in FinsOf(bodies);
      BodiesPass(bodies, n - 1) + last.DrawnCalls()
  }

  class Rocket {
    const length: real
    var drawingSize: real
    const nose: Nose
    const bodies: seq<Body>

    /** A rocket with the parts the loader built for it and the default drawing size 0.8. */
    constructor (length: real, nose: Nose, bodies: seq<Body>)
      ensures this.length == length && this.nose == nose && this.bodies == bodies
      ensures drawingSize == 0.8
    {
      this.length := length;
      this.nose := nose;
      this.bodies := bodies;
      drawingSize := 0.8;
    }

    /** Every fin of every body tube. */
    ghost function AllFins(): set<Fin>
      reads bodies
    {
      FinsOf(bodies)
    }

    /** One frame: the angles arrive in degrees; one scale, one rotation and one pixel centre
        are computed and handed to the nose and to every body tube, which hands them and the
        roll (now in radians) to its fins. */
    method Update(frac: Vec, roll: real, pitch: real, yaw: real, window: WindowSize, trig: Trig)
      requires length != 0.0 && trig.pi > 0.0
      requires forall b, f :: b in bodies && f in b.fins ==> f.nFin >= 1
      modifies nose, bodies, AllFins()
      ensures forall b :: b in bodies ==> b.fins == old(b.fins)
      ensures var scale := FrameScale(window.height, length, drawingSize, yaw, trig);
              var rot := FrameRotation(pitch, trig);
              var pos := FrameCentre(window, frac);
        && nose.polygon == ProjectAll(nose.nosePoints, rot, scale, pos)
        && (forall b :: b in bodies ==> b.polygons == ProjectAll(b.points, rot, scale, pos))
        && (forall b, f :: b in bodies && f in b.fins ==> f.Projected(pos, scale, rot, Radians(roll, trig.pi), trig))
    {
      var rollRad := Radians(roll, trig.pi);
      var pitchRad := Radians(pitch, trig.pi);
      var yawRad := Radians(yaw, trig.pi);
      var scale := (window.height as real) / length * drawingSize * trig.cos(yawRad);
      var rot := Mat2(trig.cos(pitchRad), -trig.sin(pitchRad), trig.sin(pitchRad), trig.cos(pitchRad));
      var pos := Vec((window.width as real) * frac.x, (window.height as real) * frac.y);
      nose.Update(pos, scale, rot);
      var i := 0;
      while i < |bodies|
        invariant 0 <= i <= |bodies|
        invariant forall b :: b in bodies ==> b.fins == old(b.fins)
        invariant nose.polygon == ProjectAll(nose.nosePoints, rot, scale, pos)
        invariant forall b :: b in bodies[..i] ==> b.polygons == ProjectAll(b.points, rot, scale, pos)
        invariant forall b, f :: b in bodies[..i] && f in b.fins ==> f.Projected(pos, scale, rot, rollRad, trig)
      {
        var body := bodies[i];
        assert body in bodies;
        assert forall f :: f in body.fins ==> f in old(AllFins());
        body.Update(pos, scale, rot, rollRad, trig);
        assert bodies[..i + 1] == bodies[..i] + [body];
        i := i + 1;
      }
      assert bodies[..i] == bodies;
      assert scale == FrameScale(window.height, length, drawingSize, yaw, trig);
      assert rot == FrameRotation(pitch, trig);
      assert pos == FrameCentre(window, frac);
    }

    /** The nose, then each body tube with its fins, in list order. Drawing changes nothing
        but the screen, so the calls are those of the parts as they were on entry. */
    method Draw(screen: Screen)
      modifies screen
      ensures screen.calls == old(screen.calls + Outlined(White, nose.polygon) + BodiesPass(bodies, |bodies|))
    {
      ghost var pass := BodiesPass(bodies, |bodies|);
      ghost var fins := FinsOf(bodies);
      nose.Draw(screen);
      assert unchanged(this);
      assert forall b :: b in bodies ==> unchanged(b);
      assert FinsOf(bodies) == fins;
      assert forall f :: f in fins ==> unchanged(f);
      assert BodiesPass(bodies, |bodies|) == pass;
      DrawBodies(bodies, screen);
    }
  }

  /** The loop of the rocket's draw over its body tubes. */
  method DrawBodies(bodies: seq<Body>, screen: Screen)
    modifies screen
    ensures screen.calls == old(screen.calls + BodiesPass(bodies, |bodies|))
  {
    var i := 0;
    while i < |bodies|
      invariant 0 <= i <= |bodies|
      invariant screen.calls == old(screen.calls + BodiesPass(bodies, i))
    {
      var body := bodies[i];
      assert body in bodies;
      AppendAssoc(old(screen.calls), old(BodiesPass(bodies, i)), old(body.DrawnCalls()));
      body.Draw(screen);
      i := i + 1;
    }
  }
}
