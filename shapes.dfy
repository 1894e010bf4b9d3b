/** An ordered collection of points with a persistent winding hint, its
    whole-set transforms and its shape generators (rectangle, regular polygon,
    star, circular sector). Every generator appends its points in a fixed
    clockwise order and then, when counterclockwise order was asked for,
    reverses all of the appended points but the first. */
module Shapes {
  import opened Angles
  import opened Geometry
  import opened Winding

  /** The star radii argument: one fraction of the radius, or a list of them. */
  datatype StarRadii = Single(fraction: real) | List(fractions: seq<real>)

  /** The list a `StarRadii` argument stands for; a single fraction is a list of one. */
  function FractionsOf(s: StarRadii): seq<real>
  {
    match s
    case Single(f) => [f]
    case List(fs) => fs
  }

  /** The four corners: the corner itself, then moved by the width, by both
      width and height, and by the height. */
  function RectanglePath(corner: Pt, width: real, height: real): seq<Pt>
  {
    [corner, TranslatedX(corner, width), Translated(corner, width, height), TranslatedY(corner, height)]
  }

  /** Every element of `s` multiplied by `factor`. */
  function Times(s: seq<real>, factor: real): seq<real>
  {
    seq(|s|, i requires 0 <= i < |s| => s[i] * factor)
  }

  /** Multiplies every fraction by `factor` in place, as the star generator
      does to its inner radii. */
  method ScaleFractions(fractions: seq<real>, factor: real) returns (scaled: seq<real>)
    ensures scaled == Times(fractions, factor)
  {
    scaled := fractions;
    var i := 0;
    while i < |scaled|
      invariant 0 <= i <= |scaled| == |fractions|
      invariant forall m :: 0 <= m < i ==> scaled[m] == fractions[m] * factor
      invariant forall m :: i <= m < |scaled| ==> scaled[m] == fractions[m]
    {
      scaled := scaled[i := scaled[i] * factor];
      i := i + 1;
    }
    assert forall m :: 0 <= m < |scaled| ==> scaled[m] == Times(fractions, factor)[m];
  }

  /** The outer radius followed by each fraction multiplied by it. */
  function StarRadiiOf(radius: real, fractions: seq<real>): seq<real>
  {
    [radius] + Times(fractions, radius)
  }

  /** The radii of a star: a single fraction is taken as a list of one, every
      fraction is multiplied by the outer radius, and the outer radius comes
      first. */
  method PrepareRadii(radius: real, starRadii: StarRadii) returns (radii: seq<real>)
    ensures radii == StarRadiiOf(radius, FractionsOf(starRadii))
    ensures |radii| == |FractionsOf(starRadii)| + 1 && radii[0] == radius
  {
    var fractions := FractionsOf(starRadii);
    fractions := ScaleFractions(fractions, radius);
    radii := [radius] + fractions;
  }

  /** The point `radius` above the centre, rotated about it by `r`. */
  function RadialPoint(c: Pt, radius: real, r: Rotation): Pt
  {
    Rotated(TranslatedY(c, -radius), c, r)
  }

  /** The angle reached from 0 by `j` successive additions of `delta`, as the
      star generator advances its angle. */
  function AngleAt(j: nat, delta: real): real
  {
    if j == 0 then 0.0 else AngleAt(j - 1, delta) + delta
  }

  /** `j` additions of `delta` to an angle of 0 give `j * delta`. */
  lemma {:induction false} AngleAtIsMultiple(j: nat, delta: real)
    ensures AngleAt(j, delta) == (j as real) * delta
  {
    if j > 0 {
      AngleAtIsMultiple(j - 1, delta);
      assert ((j - 1) as real) * delta + delta == (j as real) * delta;
    }
  }

  /** An angle created at 0 and advanced `steps` times by `delta`, as the star
      generator advances its angle: it ends at `steps * delta`, its cache
      agreeing with that value. */
  method AdvancedAngle(steps: nat, delta: real) returns (a: Angle)
    ensures a.Valid() && a.radians == (steps as real) * delta
  {
    a := Angle.Create(0.0);
    var i := 0;
    while i < steps
      invariant 0 <= i <= steps
      invariant a.Valid() && a.radians == AngleAt(i, delta)
    {
      a.Add(delta);
      i := i + 1;
    }
    AngleAtIsMultiple(steps, delta);
  }

  /** The first `k` points of a star corner whose first point is reached after
      `first` angular steps: one point per radius, the step count growing by
      one from point to point. */
  function StarCorner(c: Pt, radii: seq<real>, delta: real, first: nat, k: nat): (r: seq<Pt>)
    requires k <= |radii|
    ensures |r| == k
  {
    if k == 0 then []
    else StarCorner(c, radii, delta, first, k - 1) + [RadialPoint(c, radii[k - 1], RotationOf(AngleAt(first + k - 1, delta)))]
  }

  /** The number of angular steps taken before corner `corners` of a star
      whose corners have `count` points each. */
  function StarSteps(count: nat, corners: nat): nat
  {
    if corners == 0 then 0 else StarSteps(count, corners - 1) + count
  }

  /** Corner after corner, `count` steps each, is `corners * count` steps. */
  lemma {:induction false} StarStepsIsProduct(count: nat, corners: nat)
    ensures StarSteps(count, corners) == corners * count
  {
    if corners > 0 {
      StarStepsIsProduct(count, corners - 1);
      assert (corners - 1) * count + count == corners * count;
    }
  }

  /** The points of the first `corners` corners of a star, corner after corner;
      there is one point per step taken. */
  function StarPoints(c: Pt, radii: seq<real>, delta: real, corners: nat): (r: seq<Pt>)
    ensures |r| == StarSteps(|radii|, corners)
  {
    if corners == 0 then []
    else StarPoints(c, radii, delta, corners - 1) + StarCorner(c, radii, delta, StarSteps(|radii|, corners - 1), |radii|)
  }

  /** The angular step of a star: a full turn of 360 degrees divided by the
      number of corners and by the number of radii. */
  function StarStep(n: int, count: nat): real
    requires n != 0 && count != 0
  {
    Deg2Rad(360.0) / (n as real) / (count as real)
  }

  /** The clockwise points of a star with `n` corners. */
  function StarPath(c: Pt, n: nat, radius: real, fractions: seq<real>): seq<Pt>
    requires 0 < n
  {
    var radii := StarRadiiOf(radius, fractions);
    StarPoints(c, radii, StarStep(n, |radii|), n)
  }

  /** The point `radius` to the right of the centre, rotated about it by `r`. */
  function ArcPoint(c: Pt, radius: real, r: Rotation): Pt
  {
    Rotated(TranslatedX(c, radius), c, r)
  }

  /** The centre, then the arc point at the start angle, then at the stop angle. */
  function SectorPath(c: Pt, radius: real, start: Rotation, stop: Rotation): seq<Pt>
  {
    [c, ArcPoint(c, radius, start), ArcPoint(c, radius, stop)]
  }

  class Points {
    var points: seq<Pt>
    var ccw: bool

    /** An empty collection in clockwise mode. */
    constructor Create()
      ensures points == [] && !ccw
    {
      points := [];
      ccw := false;
    }

    /** Asks for counterclockwise order from the next generator on. */
    method Ccw() returns (self: Points)
      modifies this
      ensures self == this
      ensures ccw && points == old(points)
    {
      ccw := true;
      self := this;
    }

    /** Asks for clockwise order from the next generator on. */
    method Cw() returns (self: Points)
      modifies this
      ensures self == this
      ensures !ccw && points == old(points)
    {
      ccw := false;
      self := this;
    }

    /** Appends a copy of `p`; `p` itself is neither changed nor shared. */
    method AddPoint(p: Point)
      modifies this
      ensures points == old(points) + [p.Value()]
      ensures ccw == old(ccw)
    {
      points := points + [p.Value()];
    }

    /** In counterclockwise mode, reverses the last `n` points in place by
        swapping from both ends towards the middle; otherwise does nothing. */
    method ReverseIfCcw(n: int)
      requires n <= |points|
      modifies this
      ensures ccw == old(ccw)
      ensures points == Oriented(old(points), ccw, n)
    {
      if !ccw {
        return;
      }
      var count := |points|;
      var i, k := count - n, count - 1;
      SwapStart(points, n);
      while i < k
        invariant ccw == old(ccw)
        invariant k == 2 * |old(points)| - n - 1 - i
        invariant SwappedUpTo(old(points), points, n, i)
      {
        SwapStep(old(points), points, n, i);
        var swap := points[i];
        points := points[i := points[k]];
        points := points[k := swap];
        i, k := i + 1, k - 1;
      }
      SwapDone(old(points), points, n, i);
    }

    /** Appends the four corners of a rectangle. */
    method Rectangle(corner: Point, width: real, height: real) returns (self: Points)
      modifies this
      ensures self == this && ccw == old(ccw)
      ensures points == old(points) + Oriented(RectanglePath(corner.Value(), width, height), ccw, 3)
    {
      ghost var before := points;
      AddPoint(corner);
      AddPoint(corner);
      points := points[|points| - 1 := TranslatedX(points[|points| - 1], width)];
      AddPoint(corner);
      points := points[|points| - 1 := Translated(points[|points| - 1], width, height)];
      AddPoint(corner);
      points := points[|points| - 1 := TranslatedY(points[|points| - 1], height)];
      assert points == before + RectanglePath(corner.Value(), width, height);
      ReverseIfCcw(3);
      OrientedAppend(before, RectanglePath(corner.Value(), width, height), ccw, 3);
      self := this;
    }

    /** Appends the corners of a regular polygon: a star without inner radii. */
    method Polygon(center: Point, n: int, radius: real) returns (self: Points)
      requires n != 0
      modifies this
      ensures self == this && ccw == old(ccw)
      ensures n < 0 ==> points == old(points)
      ensures 0 < n ==>
        var path := StarPath(center.Value(), n, radius, []);
        points == old(points) + Oriented(path, ccw, |path| - 1)
    {
      self := Star(center, n, radius, List([]));
    }

    /** Appends the points of a star with `n` corners. Each corner contributes
        one point per radius (the outer radius, then each fraction times it),
        at angles that grow by a fixed step from 0. */
    method Star(center: Point, n: int, radius: real, starRadii: StarRadii) returns (self: Points)
      requires n != 0
      modifies this
      ensures self == this && ccw == old(ccw)
      ensures n < 0 ==> points == old(points)
      ensures 0 < n ==>
        var path := StarPath(center.Value(), n, radius, FractionsOf(starRadii));
        points == old(points) + Oriented(path, ccw, |path| - 1)
    {
      var radii := PrepareRadii(radius, starRadii);
      ghost var c := center.Value();
      AppendStar(center, n, radii);
      if 0 < n {
        assert center.Value() == c && StarPath(c, n, radius, FractionsOf(starRadii))
          == StarPoints(c, radii, StarStep(n, |radii|), n);
      }
      self := this;
    }

    /** The generating part of `Star`, once the radii are known: the angular
        step, the nested loops, and the reversal of all but the first point
        in counterclockwise order. */
    method AppendStar(center: Point, n: int, radii: seq<real>)
      requires n != 0 && 0 < |radii|
      modifies this
      ensures ccw == old(ccw)
      ensures n < 0 ==> points == old(points)
      ensures 0 < n ==>
        var path := StarPoints(center.Value(), radii, StarStep(n, |radii|), n);
        |path| == n * |radii| && points == old(points) + Oriented(path, ccw, |path| - 1)
    {
      var count := |radii|;
      var delta := StarStep(n, count);
      ghost var c, before := center.Value(), points;
      ghost var corners: nat := if n < 0 then 0 else n;
      AppendStarPoints(center, n, radii, delta);
      ghost var path := StarPoints(c, radii, delta, corners);
      var total := n * count;
      assert total - 1 < |path| by {
        StarStepsIsProduct(count, corners);
        assert n < 0 ==> total < 0;
      }
      ReverseIfCcw(total - 1);
      if 0 < n {
        assert |path| == total by { StarStepsIsProduct(count, corners); }
        OrientedAppend(before, path, ccw, total - 1);
      }
    }

    /** The nested loops of `Star`: for each of the `n` corners, one point per
        radius, each at the current angle, which then grows by `delta`. */
    method AppendStarPoints(center: Point, n: int, radii: seq<real>, delta: real)
      modifies this
      ensures ccw == old(ccw)
      ensures points == old(points) + StarPoints(center.Value(), radii, delta, if n < 0 then 0 else n)
    {
      var angle := Angle.Create(0.0);
      ghost var c := center.Value();
      var i := 0;
      ghost var steps: nat, done := 0, [];
      while i < n
        invariant 0 <= i <= if n < 0 then 0 else n
        invariant steps == StarSteps(|radii|, i) && done == StarPoints(c, radii, delta, i)
        invariant center.Value() == c
        invariant points == old(points) + done
        invariant angle.Valid() && angle.radians == AngleAt(steps, delta)
        invariant ccw == old(ccw)
      {
        ghost var corner := StarCorner(c, radii, delta, steps, |radii|);
        AppendStarCorner(center, radii, delta, steps, angle);
        AppendAssociates(old(points), done, corner);
        i, steps, done := i + 1, steps + |radii|, done + corner;
      }
    }

    /** The inner loop of `Star`: one point per radius, starting at the angle
        reached after `first` steps and advancing `angle` by `delta` after each. */
    method AppendStarCorner(center: Point, radii: seq<real>, delta: real, ghost first: nat, angle: Angle)
      requires angle.Valid() && angle.radians == AngleAt(first, delta)
      modifies this, angle
      ensures ccw == old(ccw)
      ensures points == old(points) + StarCorner(center.Value(), radii, delta, first, |radii|)
      ensures angle.Valid() && angle.radians == AngleAt(first + |radii|, delta)
    {
      var k := 0;
      while k < |radii|
        invariant 0 <= k <= |radii|
        invariant points == old(points) + StarCorner(center.Value(), radii, delta, first, k)
        invariant angle.Valid() && angle.radians == AngleAt(first + k, delta)
        invariant ccw == old(ccw)
      {
        AddRadialPoint(center, radii[k], angle);
        angle.Add(delta);
        k := k + 1;
      }
    }

    /** Appends a copy of `center` moved up by `radius` and then rotated about
        `center` by `angle`. */
    method AddRadialPoint(center: Point, radius: real, angle: Angle)
      modifies this
      ensures ccw == old(ccw)
      ensures points == old(points) + [RadialPoint(center.Value(), radius, Rotation(angle.cos, angle.sin))]
    {
      AddPoint(center);
      var last := |points| - 1;
      points := points[last := Rotated(TranslatedY(points[last], -radius), center.Value(), Rotation(angle.cos, angle.sin))];
    }

    /** Appends the centre and the two arc points of a circular sector, using
        the cached cosine and sine of `start` and `stop`. */
    method Sector(center: Point, start: Angle, stop: Angle, radius: real) returns (self: Points)
      modifies this
      ensures self == this && ccw == old(ccw)
      ensures points == old(points) +
        Oriented(SectorPath(center.Value(), radius, Rotation(start.cos, start.sin), Rotation(stop.cos, stop.sin)), ccw, 2)
    {
      ghost var before := points;
      var c := center.Value();
      AddPoint(center);
      AddPoint(center);
      points := points[|points| - 1 := Rotated(TranslatedX(points[|points| - 1], radius), c, Rotation(start.cos, start.sin))];
      AddPoint(center);
      points := points[|points| - 1 := Rotated(TranslatedX(points[|points| - 1], radius), c, Rotation(stop.cos, stop.sin))];
      ghost var path := SectorPath(c, radius, Rotation(start.cos, start.sin), Rotation(stop.cos, stop.sin));
      assert points == before + path;
      ReverseIfCcw(2);
      OrientedAppend(before, path, ccw, 2);
      self := this;
    }

    /** Replaces every point by its image under `f`, keeping length and order. */
    method MapPoints(f: Pt -> Pt)
      modifies this
      ensures ccw == old(ccw)
      ensures |points| == |old(points)|
      ensures forall m :: 0 <= m < |points| ==> points[m] == f(old(points)[m])
    {
      var i := 0;
      while i < |points|
        invariant 0 <= i <= |points| == |old(points)|
        invariant forall m :: 0 <= m < i ==> points[m] == f(old(points)[m])
        invariant forall m :: i <= m < |points| ==> points[m] == old(points)[m]
        invariant ccw == old(ccw)
      {
        points := points[i := f(points[i])];
        i := i + 1;
      }
    }

    /** Rotates every point about `center` by `angle`. */
    method Rotate(center: Point, angle: Angle) returns (self: Points)
      modifies this
      ensures self == this && ccw == old(ccw)
      ensures |points| == |old(points)|
      ensures forall m :: 0 <= m < |points| ==>
        points[m] == Rotated(old(points)[m], center.Value(), Rotation(angle.cos, angle.sin))
    {
      var c, r := center.Value(), Rotation(angle.cos, angle.sin);
      MapPoints(p => Rotated(p, c, r));
      self := this;
    }

    /** Scales every point's offset from `center` by `factor`. */
    method Scale(center: Point, factor: real) returns (self: Points)
      modifies this
      ensures self == this && ccw == old(ccw)
      ensures |points| == |old(points)|
      ensures forall m :: 0 <= m < |points| ==> points[m] == Scaled(old(points)[m], center.Value(), factor)
    {
      var c := center.Value();
      MapPoints(p => Scaled(p, c, factor));
      self := this;
    }

    method ScaleX(center: Point, factor: real) returns (self: Points)
      modifies this
      ensures self == this && ccw == old(ccw)
      ensures |points| == |old(points)|
      ensures forall m :: 0 <= m < |points| ==> points[m] == ScaledX(old(points)[m], center.Value(), factor)
    {
      var c := center.Value();
      MapPoints(p => ScaledX(p, c, factor));
      self := this;
    }

    method ScaleY(center: Point, factor: real) returns (self: Points)
      modifies this
      ensures self == this && ccw == old(ccw)
      ensures |points| == |old(points)|
      ensures forall m :: 0 <= m < |points| ==> points[m] == ScaledY(old(points)[m], center.Value(), factor)
    {
      var c := center.Value();
      MapPoints(p => ScaledY(p, c, factor));
      self := this;
    }

    /** Moves every point by (dx, dy). */
    method Translate(dx: real, dy: real) returns (self: Points)
      modifies this
      ensures self == this && ccw == old(ccw)
      ensures |points| == |old(points)|
      ensures forall m :: 0 <= m < |points| ==> points[m] == Translated(old(points)[m], dx, dy)
    {
      MapPoints(p => Translated(p, dx, dy));
      self := this;
    }

    method TranslateX(dx: real) returns (self: Points)
      modifies this
      ensures self == this && ccw == old(ccw)
      ensures |points| == |old(points)|
      ensures forall m :: 0 <= m < |points| ==> points[m] == TranslatedX(old(points)[m], dx)
    {
      MapPoints(p => TranslatedX(p, dx));
      self := this;
    }

    method TranslateY(dy: real) returns (self: Points)
      modifies this
      ensures self == this && ccw == old(ccw)
      ensures |points| == |old(points)|
      ensures forall m :: 0 <= m < |points| ==> points[m] == TranslatedY(old(points)[m], dy)
    {
      MapPoints(p => TranslatedY(p, dy));
      self := this;
    }
  }
}
