/** The drawing surface. Every `pg.draw.polygon` call the rocket makes is recorded, in
    order, as one `DrawCall` on a `Screen`; rasterisation itself is not modelled. */
module Canvas {
  import opened Geometry

  datatype Color = White | Black | Blue

  /** One polygon call: `width` 0 fills the polygon, width 1 strokes its outline. */
  datatype DrawCall = DrawPolygon(color: Color, points: seq<Vec>, width: nat)

  /** A filled polygon followed by its one-pixel black outline, the pair of calls every
      part of the rocket issues. */
  function Outlined(fill: Color, poly: seq<Vec>): seq<DrawCall>
  {
    [DrawPolygon(fill, poly, 0), DrawPolygon(Black, poly, 1)]
  }

  /** `Outlined` for each polygon in turn. */
  function OutlinedAll(fill: Color, polys: seq<seq<Vec>>): seq<DrawCall>
  {
    if |polys| == 0 then []
    else OutlinedAll(fill, polys[..|polys| - 1]) + Outlined(fill, polys[|polys| - 1])
  }

  /** Two calls per polygon, the fill of polygon j at position 2j and its outline right after. */
  lemma {:induction false} OutlinedAllAt(fill: Color, polys: seq<seq<Vec>>)
    ensures |OutlinedAll(fill, polys)| == 2 * |polys|
    ensures forall j :: 0 <= j < |polys| ==>
      OutlinedAll(fill, polys)[2 * j] == DrawPolygon(fill, polys[j], 0) &&
      OutlinedAll(fill, polys)[2 * j + 1] == DrawPolygon(Black, polys[j], 1)
  {
    if |polys| > 0 {
      var init := polys[..|polys| - 1];
      OutlinedAllAt(fill, init);
      assert forall j :: 0 <= j < |init| ==> init[j] == polys[j];
    }
  }

  /** Emitting a longer list emits the shorter one first. */
  lemma OutlinedAllSnoc(fill: Color, polys: seq<seq<Vec>>, p: seq<Vec>)
    ensures OutlinedAll(fill, polys + [p]) == OutlinedAll(fill, polys) + Outlined(fill, p)
  {
    assert (polys + [p])[..|polys|] == polys;
  }

  /** Appending calls in two steps or in one gives the same sequence. */
  lemma AppendAssoc(a: seq<DrawCall>, b: seq<DrawCall>, c: seq<DrawCall>)
    ensures a + (b + c) == a + b + c
  {
  }

  /** The screen as the sequence of polygon calls made on it so far. */
  class Screen {
    var calls: seq<DrawCall>

    constructor ()
      ensures calls == []
    {
      calls := [];
    }

    /** `pg.draw.polygon(screen, color, points, width)`. */
    method Polygon(color: Color, points: seq<Vec>, width: nat)
      modifies this
      ensures calls == old(calls) + [DrawPolygon(color, points, width)]
    {
      calls := calls + [DrawPolygon(color, points, width)];
    }

    /** The fill-then-outline pair of polygon calls every part of the rocket makes. */
    method DrawOutlined(fill: Color, poly: seq<Vec>)
      modifies this
      ensures calls == old(calls) + Outlined(fill, poly)
    {
      Polygon(fill, poly, 0);
      Polygon(Black, poly, 1);
    }
  }
}
