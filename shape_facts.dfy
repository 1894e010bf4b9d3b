/** Properties of the generated shapes: where each point lands, how many points
    there are, what counterclockwise order does to them, and the expected
    values of the repository's own test cases, stated for the clockwise paths
    the generators append. */
module ShapeFacts {
  import opened Angles
  import opened Geometry
  import opened Winding
  import opened Shapes

  /** In counterclockwise order the rectangle keeps its corner first and then
      runs through the other three corners the other way round. */
  lemma RectangleCcw(c: Pt, width: real, height: real)
    ensures Oriented(RectanglePath(c, width, height), false, 3) == [c, TranslatedX(c, width), Translated(c, width, height), TranslatedY(c, height)]
    ensures Oriented(RectanglePath(c, width, height), true, 3) == [c, TranslatedY(c, height), Translated(c, width, height), TranslatedX(c, width)]
  {
    var path := RectanglePath(c, width, height);
    ReverseTailKeepsFirst(path);
    assert path[1..] == [TranslatedX(c, width), Translated(c, width, height), TranslatedY(c, height)];
  }

  /** The rectangle of corner (10, 20), width 100 and height 80, in both orders. */
  lemma RectangleTestVectors()
    ensures RectanglePath(Pt(10.0, 20.0), 100.0, 80.0) == [Pt(10.0, 20.0), Pt(110.0, 20.0), Pt(110.0, 100.0), Pt(10.0, 100.0)]
    ensures Oriented(RectanglePath(Pt(10.0, 20.0), 100.0, 80.0), true, 3) == [Pt(10.0, 20.0), Pt(10.0, 100.0), Pt(110.0, 100.0), Pt(110.0, 20.0)]
  {
    RectangleCcw(Pt(10.0, 20.0), 100.0, 80.0);
  }

  /** Point `m` of a star corner is at radius `radii[m]`, `first + m` steps round. */
  lemma {:induction false} StarCornerAt(c: Pt, radii: seq<real>, delta: real, first: nat, k: nat, m: nat)
    requires m < k <= |radii|
    ensures StarCorner(c, radii, delta, first, k)[m] == RadialPoint(c, radii[m], RotationOf(AngleAt(first + m, delta)))
  {
    if m < k - 1 {
      StarCornerAt(c, radii, delta, first, k - 1, m);
    }
  }

  /** A positive multiple of a positive number is at least that number. */
  lemma {:induction false} MultipleAtLeast(a: int, c: int)
    requires 1 <= a && 0 < c
    ensures c <= a * c
  {
    if a > 1 {
      MultipleAtLeast(a - 1, c);
      assert a * c == (a - 1) * c + c;
    }
  }

  /** Writing `x` as `q * c + r` with `0 <= r < c` determines the remainder. */
  lemma RemainderUnique(x: int, c: int, q: int, r: int)
    requires 0 < c && 0 <= r < c && x == q * c + r
    ensures x % c == r
  {
    var q', r' := x / c, x % c;
    assert (q - q') * c == r' - r;
    if q > q' {
      MultipleAtLeast(q - q', c);
    } else if q < q' {
      assert (q' - q) * c == r - r';
      MultipleAtLeast(q' - q, c);
    }
  }

  /** The star points, counted from 0: point `j` lies at radius
      `radii[j % |radii|]` and at the angle reached after `j` steps. */
  lemma {:induction false} StarPointAt(c: Pt, radii: seq<real>, delta: real, corners: nat, j: nat)
    requires j < StarSteps(|radii|, corners)
    ensures 0 < |radii|
    ensures StarPoints(c, radii, delta, corners)[j] == RadialPoint(c, radii[j % |radii|], RotationOf(AngleAt(j, delta)))
  {
    var before := StarSteps(|radii|, corners - 1);
    if j < before {
      StarPointAt(c, radii, delta, corners - 1, j);
    } else {
      var m := j - before;
      StarCornerAt(c, radii, delta, before, |radii|, m);
      StarStepsIsProduct(|radii|, corners - 1);
      RemainderUnique(j, |radii|, corners - 1, m);
    }
  }

  /** The angular step of a star is a full turn of `2 * Pi` shared out among
      the `n * count` points, and the `n * count` steps make exactly one turn. */
  lemma StarStepIsShareOfTurn(n: nat, count: nat)
    requires 0 < n && 0 < count
    ensures StarStep(n, count) == 2.0 * Pi / (n as real) / (count as real)
    ensures ((n * count) as real) * StarStep(n, count) == 2.0 * Pi
  {
    Deg2RadTurn();
    var turn := 2.0 * Pi;
    assert ((n * count) as real) == (n as real) * (count as real);
    calc {
      ((n * count) as real) * StarStep(n, count);
      == (n as real) * (count as real) * (turn / (n as real) / (count as real));
      == turn;
    }
  }

  /** The star with `n` corners, outer radius `radius` and inner fractions
      `fractions` has one radius more than there are fractions and
      `n * (|fractions| + 1)` points; point `j` lies at radius
      `radii[j % |radii|]` and at the angle reached after `j` star steps. */
  lemma StarPathAt(c: Pt, n: nat, radius: real, fractions: seq<real>, j: nat)
    requires 0 < n && j < n * (|fractions| + 1)
    ensures |StarPath(c, n, radius, fractions)| == n * (|fractions| + 1)
    ensures var radii := StarRadiiOf(radius, fractions);
      |radii| == |fractions| + 1 &&
      StarPath(c, n, radius, fractions)[j] == RadialPoint(c, radii[j % |radii|], RotationOf(AngleAt(j, StarStep(n, |radii|)))) &&
      AngleAt(j, StarStep(n, |radii|)) == (j as real) * StarStep(n, |radii|)
  {
    var radii := StarRadiiOf(radius, fractions);
    assert |radii| == |fractions| + 1;
    StarStepsIsProduct(|radii|, n);
    StarPointAt(c, radii, StarStep(n, |radii|), n, j);
    AngleAtIsMultiple(j, StarStep(n, |radii|));
  }

  /** A polygon is a star without inner radii: `n` points on the circle of
      `radius`, point `j` at `j` steps of `2 * Pi / n`. */
  lemma PolygonPathAt(c: Pt, n: nat, radius: real, j: nat)
    requires j < n
    ensures |StarPath(c, n, radius, [])| == n
    ensures StarPath(c, n, radius, [])[j] == RadialPoint(c, radius, RotationOf((j as real) * (2.0 * Pi / (n as real))))
  {
    StarPathAt(c, n, radius, [], j);
    var delta := StarStep(n, 1);
    StarStepIsShareOfTurn(n, 1);
    assert delta == 2.0 * Pi / (n as real);
    assert StarRadiiOf(radius, []) == [radius];
    assert AngleAt(j, delta) == (j as real) * (2.0 * Pi / (n as real));
  }

  /** In counterclockwise order the sector keeps its centre first and swaps
      the two arc points. */
  lemma SectorCcw(c: Pt, radius: real, start: Rotation, stop: Rotation)
    ensures Oriented(SectorPath(c, radius, start, stop), true, 2) == SectorPath(c, radius, stop, start)
  {
    var path := SectorPath(c, radius, start, stop);
    ReverseTailKeepsFirst(path);
    assert path[1..] == [ArcPoint(c, radius, start), ArcPoint(c, radius, stop)];
  }

  /** The sector of centre (10, 20) and radius 100 between angles whose cached
      cosine and sine are (l, l) and (-l, l), as for 45 and 135 degrees. */
  lemma SectorTestVectors(l: real)
    ensures SectorPath(Pt(10.0, 20.0), 100.0, Rotation(l, l), Rotation(-l, l))
      == [Pt(10.0, 20.0), Pt(10.0 + 100.0 * l, 20.0 + 100.0 * l), Pt(10.0 - 100.0 * l, 20.0 + 100.0 * l)]
    ensures Oriented(SectorPath(Pt(10.0, 20.0), 100.0, Rotation(l, l), Rotation(-l, l)), true, 2)
      == [Pt(10.0, 20.0), Pt(10.0 - 100.0 * l, 20.0 + 100.0 * l), Pt(10.0 + 100.0 * l, 20.0 + 100.0 * l)]
  {
    var c := Pt(10.0, 20.0);
    assert ArcPoint(c, 100.0, Rotation(l, l)) == Pt(10.0 + 100.0 * l, 20.0 + 100.0 * l);
    assert ArcPoint(c, 100.0, Rotation(-l, l)) == Pt(10.0 - 100.0 * l, 20.0 + 100.0 * l);
    SectorCcw(c, 100.0, Rotation(l, l), Rotation(-l, l));
  }

  /** The four quarter turns, as the true cosine and sine have them. */
  ghost predicate QuarterTurns()
  {
    RotationOf(0.0) == Rotation(1.0, 0.0) && RotationOf(Pi / 2.0) == Rotation(0.0, 1.0) &&
    RotationOf(Pi) == Rotation(-1.0, 0.0) && RotationOf(3.0 * Pi / 2.0) == Rotation(0.0, -1.0)
  }

  /** Given the quarter turns, the point `r` above (10, 20) turned by `j`
      quarter turns is on top, to the right, below or to the left of it (y
      grows downwards). */
  lemma QuarterPoint(j: nat, r: real)
    requires QuarterTurns() && j < 4
    ensures RadialPoint(Pt(10.0, 20.0), r, RotationOf((j as real) * (Pi / 2.0)))
      == [Pt(10.0, 20.0 - r), Pt(10.0 + r, 20.0), Pt(10.0, 20.0 + r), Pt(10.0 - r, 20.0)][j]
  {
    if j == 0 {
      assert (j as real) * (Pi / 2.0) == 0.0;
    } else if j == 1 {
      assert (j as real) * (Pi / 2.0) == Pi / 2.0;
    } else if j == 2 {
      assert (j as real) * (Pi / 2.0) == Pi;
    } else {
      assert (j as real) * (Pi / 2.0) == 3.0 * Pi / 2.0;
    }
  }

  /** Given the quarter turns, the square of centre (10, 20) and radius 100
      runs top, right, bottom, left, and the other way round from the top
      counterclockwise. */
  lemma PolygonTestVectors()
    requires QuarterTurns()
    ensures StarPath(Pt(10.0, 20.0), 4, 100.0, []) == [Pt(10.0, -80.0), Pt(110.0, 20.0), Pt(10.0, 120.0), Pt(-90.0, 20.0)]
    ensures Oriented(StarPath(Pt(10.0, 20.0), 4, 100.0, []), true, 3) == [Pt(10.0, -80.0), Pt(-90.0, 20.0), Pt(10.0, 120.0), Pt(110.0, 20.0)]
  {
    var path := StarPath(Pt(10.0, 20.0), 4, 100.0, []);
    var expected := [Pt(10.0, -80.0), Pt(110.0, 20.0), Pt(10.0, 120.0), Pt(-90.0, 20.0)];
    PolygonPathAt(Pt(10.0, 20.0), 4, 100.0, 0);
    forall j | 0 <= j < 4 ensures path[j] == expected[j] {
      PolygonPathAt(Pt(10.0, 20.0), 4, 100.0, j);
      assert 2.0 * Pi / 4.0 == Pi / 2.0;
      QuarterPoint(j, 100.0);
    }
    ReverseTailKeepsFirst(path);
    assert path[1..] == expected[1..];
  }

  /** When the `n` corners and `count` radii of a star make four points, each
      step is a quarter turn. */
  lemma StarStepQuarter(n: nat, count: nat)
    requires 0 < n && 0 < count && n * count == 4
    ensures StarStep(n, count) == Pi / 2.0
  {
    StarStepIsShareOfTurn(n, count);
  }

  /** Point `j` of a four-point star about (10, 20) whose radii alternate
      between 100 and 50, given the quarter turns. */
  lemma QuarterStarPoint(n: nat, fractions: seq<real>, j: nat)
    requires QuarterTurns()
    requires 0 < n && n * (|fractions| + 1) == 4 && j < 4
    requires StarRadiiOf(100.0, fractions)[j % (|fractions| + 1)] == [100.0, 50.0, 100.0, 50.0][j]
    ensures |StarPath(Pt(10.0, 20.0), n, 100.0, fractions)| == 4
    ensures StarPath(Pt(10.0, 20.0), n, 100.0, fractions)[j] == [Pt(10.0, -80.0), Pt(60.0, 20.0), Pt(10.0, 120.0), Pt(-40.0, 20.0)][j]
  {
    var count := |fractions| + 1;
    StarPathAt(Pt(10.0, 20.0), n, 100.0, fractions, j);
    StarStepQuarter(n, count);
    AngleAtIsMultiple(j, StarStep(n, count));
    QuarterPoint(j, [100.0, 50.0, 100.0, 50.0][j]);
  }

  /** The four quarter-turn points of a star with outer radius 100 and inner
      radius 50 about (10, 20), when its `n` corners and `|fractions| + 1`
      radii make four steps of a quarter turn. */
  lemma QuarterStar(n: nat, fractions: seq<real>)
    requires QuarterTurns()
    requires 0 < n && n * (|fractions| + 1) == 4
    requires StarRadiiOf(100.0, fractions) == if n == 2 then [100.0, 50.0] else [100.0, 50.0, 100.0, 50.0]
    ensures StarPath(Pt(10.0, 20.0), n, 100.0, fractions) == [Pt(10.0, -80.0), Pt(60.0, 20.0), Pt(10.0, 120.0), Pt(-40.0, 20.0)]
  {
    var path := StarPath(Pt(10.0, 20.0), n, 100.0, fractions);
    var expected := [Pt(10.0, -80.0), Pt(60.0, 20.0), Pt(10.0, 120.0), Pt(-40.0, 20.0)];
    var radii, alternating := StarRadiiOf(100.0, fractions), [100.0, 50.0, 100.0, 50.0];
    forall j: nat | j < 4 ensures path[j] == expected[j] {
      assert radii[j % |radii|] == alternating[j] by {
        if n == 2 {
          assert j % 2 == 0 || j % 2 == 1;
        }
      }
      QuarterStarPoint(n, fractions, j);
    }
    QuarterStarPoint(n, fractions, 0);
  }

  /** Given the quarter turns, the stars of the repository's tests: two
      corners with an inner radius of one half, and one corner with inner
      radii one half, one and one half, trace the same four points. */
  lemma StarTestVectors()
    requires QuarterTurns()
    ensures StarPath(Pt(10.0, 20.0), 2, 100.0, FractionsOf(Single(0.5))) == [Pt(10.0, -80.0), Pt(60.0, 20.0), Pt(10.0, 120.0), Pt(-40.0, 20.0)]
    ensures StarPath(Pt(10.0, 20.0), 1, 100.0, [0.5, 1.0, 0.5]) == [Pt(10.0, -80.0), Pt(60.0, 20.0), Pt(10.0, 120.0), Pt(-40.0, 20.0)]
    ensures Oriented(StarPath(Pt(10.0, 20.0), 2, 100.0, [0.5]), true, 3) == [Pt(10.0, -80.0), Pt(-40.0, 20.0), Pt(10.0, 120.0), Pt(60.0, 20.0)]
    ensures Oriented(StarPath(Pt(10.0, 20.0), 1, 100.0, [0.5, 1.0, 0.5]), true, 3) == [Pt(10.0, -80.0), Pt(-40.0, 20.0), Pt(10.0, 120.0), Pt(60.0, 20.0)]
  {
    assert StarRadiiOf(100.0, [0.5]) == [100.0, 50.0];
    QuarterStar(2, [0.5]);
    assert StarRadiiOf(100.0, [0.5, 1.0, 0.5]) == [100.0, 50.0, 100.0, 50.0];
    QuarterStar(1, [0.5, 1.0, 0.5]);
    var path := StarPath(Pt(10.0, 20.0), 2, 100.0, [0.5]);
    ReverseTailKeepsFirst(path);
    assert path[1..] == [Pt(60.0, 20.0), Pt(10.0, 120.0), Pt(-40.0, 20.0)];
  }
}
