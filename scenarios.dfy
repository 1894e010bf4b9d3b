/** The repository's own test scenarios, run through the objects: a fresh
    collection, optionally switched to counterclockwise order, one generator
    call. Where trigonometry is involved, the values the true functions take
    at the angles concerned are hypotheses. */
module Scenarios {
  import opened Angles
  import opened Geometry
  import opened Winding
  import opened Shapes
  import opened ShapeFacts

  /** A fresh collection in the requested order. */
  method Fresh(counterclockwise: bool) returns (ps: Points)
    ensures fresh(ps) && ps.points == [] && ps.ccw == counterclockwise
  {
    ps := new Points.Create();
    if counterclockwise {
      ps := ps.Ccw();
    }
  }

  /** The rectangle at (10, 20) of width 100 and height 80. */
  method RectangleScenario(counterclockwise: bool) returns (result: seq<Pt>)
    ensures !counterclockwise ==> result == [Pt(10.0, 20.0), Pt(110.0, 20.0), Pt(110.0, 100.0), Pt(10.0, 100.0)]
    ensures counterclockwise ==> result == [Pt(10.0, 20.0), Pt(10.0, 100.0), Pt(110.0, 100.0), Pt(110.0, 20.0)]
  {
    var ps := Fresh(counterclockwise);
    var corner := Point.Create(10.0, 20.0);
    ps := ps.Rectangle(corner, 100.0, 80.0);
    result := ps.points;
    RectangleTestVectors();
  }

  /** The square about (10, 20) of radius 100, given the quarter turns. */
  method PolygonScenario(counterclockwise: bool) returns (result: seq<Pt>)
    requires QuarterTurns()
    ensures !counterclockwise ==> result == [Pt(10.0, -80.0), Pt(110.0, 20.0), Pt(10.0, 120.0), Pt(-90.0, 20.0)]
    ensures counterclockwise ==> result == [Pt(10.0, -80.0), Pt(-90.0, 20.0), Pt(10.0, 120.0), Pt(110.0, 20.0)]
  {
    var ps := Fresh(counterclockwise);
    var center := Point.Create(10.0, 20.0);
    ps := ps.Polygon(center, 4, 100.0);
    result := ps.points;
    PolygonTestVectors();
  }

  /** The star about (10, 20) of radius 100, given the quarter turns: either
      two corners with the single inner radius one half, or one corner with
      the list of inner radii one half, one and one half. */
  method StarScenario(counterclockwise: bool, listed: bool) returns (result: seq<Pt>)
    requires QuarterTurns()
    ensures !counterclockwise ==> result == [Pt(10.0, -80.0), Pt(60.0, 20.0), Pt(10.0, 120.0), Pt(-40.0, 20.0)]
    ensures counterclockwise ==> result == [Pt(10.0, -80.0), Pt(-40.0, 20.0), Pt(10.0, 120.0), Pt(60.0, 20.0)]
  {
    var ps := Fresh(counterclockwise);
    var center := Point.Create(10.0, 20.0);
    if listed {
      ps := ps.Star(center, 1, 100.0, List([0.5, 1.0, 0.5]));
    } else {
      ps := ps.Star(center, 2, 100.0, Single(0.5));
    }
    result := ps.points;
    StarTestVectors();
  }

  /** The sector about (10, 20) of radius 100 from 45 to 135 degrees, given
      that the cosine and sine of 45 degrees are both `l` and those of 135
      degrees are `-l` and `l`. */
  method SectorScenario(counterclockwise: bool, l: real) returns (result: seq<Pt>)
    requires Cos(Deg2Rad(45.0)) == l && Sin(Deg2Rad(45.0)) == l
    requires Cos(Deg2Rad(135.0)) == -l && Sin(Deg2Rad(135.0)) == l
    ensures !counterclockwise ==> result == [Pt(10.0, 20.0), Pt(10.0 + 100.0 * l, 20.0 + 100.0 * l), Pt(10.0 - 100.0 * l, 20.0 + 100.0 * l)]
    ensures counterclockwise ==> result == [Pt(10.0, 20.0), Pt(10.0 - 100.0 * l, 20.0 + 100.0 * l), Pt(10.0 + 100.0 * l, 20.0 + 100.0 * l)]
  {
    var start := Angle.ByDegrees(45.0);
    var stop := Angle.ByDegrees(135.0);
    var ps := Fresh(counterclockwise);
    var center := Point.Create(10.0, 20.0);
    ps := ps.Sector(center, start, stop, 100.0);
    result := ps.points;
    SectorTestVectors(l);
  }

  /** The collection keeps a copy: moving the added point afterwards leaves
      the stored point where it was. */
  method AddedPointIsACopy(ps: Points, p: Point, dx: real)
    modifies ps, p
    ensures ps.points == old(ps.points) + [old(p.Value())]
    ensures p.Value() == TranslatedX(old(p.Value()), dx)
  {
    ps.AddPoint(p);
    var moved := p.TranslateX(dx);
  }

  /** The point (x, y) rotated about (cx, cy) by `angle`, on fresh objects. */
  method RotatedCopy(x: real, y: real, cx: real, cy: real, angle: Angle) returns (result: Pt)
    ensures result == Rotated(Pt(x, y), Pt(cx, cy), Rotation(angle.cos, angle.sin))
  {
    var p := Point.Create(x, y);
    var center := Point.Create(cx, cy);
    p := p.Rotate(center, angle);
    result := p.Value();
  }

  /** Rotating by 60 degrees about the origin and about (1, 1): each result is
      read off the angle's own cached cosine and sine. */
  method RotateScenario() returns (results: seq<Pt>, r: Rotation)
    ensures r == RotationOf(Deg2Rad(60.0))
    ensures results == [
      Pt(r.cos, r.sin), Pt(-r.sin, r.cos), Pt(-r.cos, -r.sin), Pt(r.sin, -r.cos),
      Pt(1.0 + r.cos, 1.0 + r.sin), Pt(1.0 - r.sin, 1.0 + r.cos), Pt(1.0 - r.cos, 1.0 - r.sin), Pt(1.0 + r.sin, 1.0 - r.cos)]
  {
    var angle := Angle.ByDegrees(60.0);
    r := Rotation(angle.cos, angle.sin);
    var p0 := RotatedCopy(1.0, 0.0, 0.0, 0.0, angle);
    var p1 := RotatedCopy(0.0, 1.0, 0.0, 0.0, angle);
    var p2 := RotatedCopy(-1.0, 0.0, 0.0, 0.0, angle);
    var p3 := RotatedCopy(0.0, -1.0, 0.0, 0.0, angle);
    var p4 := RotatedCopy(2.0, 1.0, 1.0, 1.0, angle);
    var p5 := RotatedCopy(1.0, 2.0, 1.0, 1.0, angle);
    var p6 := RotatedCopy(0.0, 1.0, 1.0, 1.0, angle);
    var p7 := RotatedCopy(1.0, 0.0, 1.0, 1.0, angle);
    results := [p0, p1, p2, p3, p4, p5, p6, p7];
  }

  /** Halving (100, 200) about the origin and about (50, 50). */
  method ScaleScenario() returns (aboutOrigin: Pt, aboutOther: Pt)
    ensures aboutOrigin == Pt(50.0, 100.0)
    ensures aboutOther == Pt(75.0, 125.0)
  {
    var p := Point.Create(100.0, 200.0);
    var origin := Point.Create(0.0, 0.0);
    p := p.Scale(origin, 0.5);
    aboutOrigin := p.Value();
    var q := Point.Create(100.0, 200.0);
    var other := Point.Create(50.0, 50.0);
    q := q.Scale(other, 0.5);
    aboutOther := q.Value();
  }

  /** Moving (20.5, 10) by (4.5, 15). */
  method TranslateScenario() returns (result: Pt)
    ensures result == Pt(25.0, 25.0)
  {
    var p := Point.Create(20.5, 10.0);
    p := p.Translate(4.5, 15.0);
    result := p.Value();
  }
}
