# graphics-php geometry core in Dafny

This project models the geometry core of the PHP library graphics-php, which
has three classes:

- `Angle` is a radian value that caches its sine, cosine and tangent.
- `Point` is a mutable point of the plane. It rotates, scales and translates
  in place about a centre and returns itself so that calls can be chained.
- `Points` is an ordered collection that owns copies of the points added to
  it. It also keeps a clockwise/counterclockwise hint. Its generators append
  a rectangle, a regular polygon, a star or a circular sector. It has
  whole-set versions of the point transforms.

Coordinates are Dafny `real`s. Pi is an arbitrary positive constant.
Sine, cosine and tangent are arbitrary finite tables (module `Angles`),
read as 0 at every angle the table does not list. Nothing proved here
relies on their true values. Where a test vector of the library needs them,
their values at the angles concerned are stated as hypotheses. Each such
hypothesis names single angles. A hypothesis over all angles, such as
sin² + cos² = 1 everywhere, would contradict the tables, because both
functions are 0 at every unlisted angle.

Modules:

- `Angles` (angle.dfy): the trigonometric stand-ins, degrees to radians and
  the `Angle` class. Every mutator keeps the cache in step with `radians`.
- `Geometry` (point.dfy): the point operations, first as functions on a
  value `Pt`, then as the in-place methods of class `Point`. Each method is
  proved to produce what its function describes. Lemmas give the algebra
  (composition, identities, fixed centre, preserved distance).
- `Winding` (winding.dfy): reversing the last `n` elements of a sequence,
  with its properties and the loop invariant of the in-place two-index
  swap.
- `Shapes` (shapes.dfy): the `Points` class and the clockwise paths its
  generators append, defined as functions.
- `ShapeFacts` (shape_facts.dfy): point counts, the position of every
  generated point, what counterclockwise order does to each shape, and the
  expected values of the library's own tests.
- `Scenarios` (scenarios.dfy): those tests written as calls on the objects,
  from a fresh collection to its final points.

A fluent call `addPoint(p)->translateX(w)` first stores a copy of `p`. It
then moves that copy. The model appends the value of `p` and then replaces
the last element by its moved image.

## Model

| member | source | states |
|---|---|---|
| Angles.Deg2RadTurn | src/Angle.php:28-31 | the degree conversion maps 360 degrees to a full turn of 2·pi and 180 degrees to pi |
| Angles.Deg2RadAdditive | src/Angle.php:71-74 | converting a sum of degrees is the sum of the conversions |
| Angles.AddDegreesInSteps | src/Angle.php:71-74 | calling addDegrees with d1 and then with d2 adds the radians of d1 + d2 to the angle, with a valid cache |
| Angles.Angle.Create | src/Angle.php:15-20 | a new angle holds exactly the given radians, and its cached sine, cosine and tangent are those of that value |
| Angles.Angle.ByDegrees | src/Angle.php:28-31 | a new angle holds the degrees converted to radians, with a matching cache |
| Angles.Angle.Set | src/Angle.php:38-44 | the angle now holds the given radians, and all three cached values are recomputed for it |
| Angles.Angle.SetDegrees | src/Angle.php:51-54 | the angle now holds the degrees converted to radians, with a matching cache |
| Angles.Angle.Add | src/Angle.php:61-64 | the radians grow by the argument, and the cache follows the new value |
| Angles.Angle.AddDegrees | src/Angle.php:71-74 | the radians grow by the degrees converted to radians, and the cache follows |
| Geometry.Point.Create | src/Point.php:18-24 | a new point with exactly the given coordinates |
| Geometry.Point.Rotate | src/Point.php:33-40 | both new coordinates are the rotation matrix of the cached cosine and sine applied to the old offset from the centre, even when the centre is the point itself; the point returns itself |
| Geometry.Point.Scale | src/Point.php:49-52 | both offsets from the centre are multiplied by the factor, through the x-scale and then the y-scale; the point returns itself |
| Geometry.Point.ScaleX | src/Point.php:61-65 | only the x-offset from the centre is multiplied by the factor; y is unchanged |
| Geometry.Point.ScaleY | src/Point.php:74-78 | only the y-offset from the centre is multiplied by the factor; x is unchanged |
| Geometry.Point.Translate | src/Point.php:87-90 | the point moves by (dx, dy), through the x-move and then the y-move |
| Geometry.Point.TranslateX | src/Point.php:98-102 | only x changes, to x + dx |
| Geometry.Point.TranslateY | src/Point.php:110-114 | only y changes, to y + dy |
| Geometry.Point.Copy | src/Point.php:121-124 | a freshly allocated point with the same coordinates |
| Geometry.CopyIsIndependent | src/Point.php:121-124 | after copying, moving the copy leaves the original alone and moving the original leaves the copy alone |
| Geometry.ScaleIsScaleXThenScaleY | src/Point.php:49-52 | a uniform scale equals the x-scale followed by the y-scale, in either order |
| Geometry.ScaleIdentityAndCentre | src/Point.php:49-52 | scaling by 1 changes nothing, and the centre is a fixed point of every scale |
| Geometry.ScaleComposes | src/Point.php:49-52 | scaling by f1 and then by f2 about one centre equals scaling by f1·f2 |
| Geometry.TranslateIsTranslateXThenTranslateY | src/Point.php:87-90 | translating by (dx, dy) equals the x-move and then the y-move, in either order |
| Geometry.RotateIdentityAndCentre | src/Point.php:33-40 | the rotation with cosine 1 and sine 0 is the identity, and the centre is a fixed point of every rotation |
| Geometry.RotatePreservesDistance | src/Point.php:33-40 | when cos² + sin² = 1, the squared distance to the centre is unchanged |
| Geometry.RotateThenUnrotate | src/Point.php:33-40 | when cos² + sin² = 1, rotating by (cos, sin) and then by (cos, −sin) returns the original point |
| Winding.Reversed | src/Points.php:243-252 | the reversal has the same length, and element i is element len−1−i of the input |
| Winding.ReversedTwice | src/Points.php:243-252 | reversing twice gives the sequence back |
| Winding.ReversedSameElements | src/Points.php:243-252 | reversal keeps every element with its multiplicity |
| Winding.ReverseTail | src/Points.php:243-252 | reversing the last n elements keeps the length |
| Winding.ReverseTailIsSplice | src/Points.php:243-252 | reversing the last n elements keeps the first len−n elements and puts the reversed last n after them; for n ≤ 0 nothing moves |
| Winding.ReverseTailShort | src/Points.php:243-252 | reversing a tail of at most one element changes nothing |
| Winding.ReverseTailKeepsFirst | src/Points.php:243-252 | reversing all but the first element keeps the first element in front and reverses the rest |
| Winding.ReverseTailAppend | src/Points.php:243-252 | reversing a tail that lies inside the newly appended points leaves all earlier points unchanged |
| Winding.ReverseTailTwice | src/Points.php:243-252 | reversing the same tail twice restores the sequence |
| Winding.ReverseTailSameElements | src/Points.php:243-252 | reversing a tail keeps every element with its multiplicity |
| Winding.OrientedAppend | src/Points.php:243-252 | orienting a sequence whose reversed tail lies inside the appended part leaves the prefix in front, in either order |
| Winding.SwapStart | src/Points.php:247 | when the two indices start at len−n and len−1, nothing has been swapped yet |
| Winding.SwapStep | src/Points.php:247-251 | while i < k, swapping slots i and k keeps both indices in range and extends the swapped part by one pair |
| Winding.SwapDone | src/Points.php:247-251 | once the indices meet or cross, the sequence is the original with its last n elements reversed |
| Shapes.Points.Create | src/Points.php:13-16 | a new collection is empty and in clockwise mode |
| Shapes.Points.Ccw | src/Points.php:21-25 | sets the counterclockwise flag and leaves the points unchanged |
| Shapes.Points.Cw | src/Points.php:30-34 | clears the counterclockwise flag and leaves the points unchanged |
| Shapes.Points.AddPoint | src/Points.php:42-45 | exactly one element, equal to the argument's value, is appended; earlier points and the flag are unchanged, and the argument is not modified |
| Shapes.Points.ReverseIfCcw | src/Points.php:243-252 | in clockwise mode nothing changes; in counterclockwise mode the two-index swap loop leaves the first len−n points and reverses the last n |
| Shapes.Points.Rectangle | src/Points.php:56-64 | appends the corner, the corner moved by the width, by both, and by the height, with the last three reversed in counterclockwise mode; earlier points stay |
| Shapes.Points.Polygon | src/Points.php:74-77 | has exactly the effect of a star with no inner radii; for n < 0 nothing is appended |
| Shapes.Points.Star | src/Points.php:88-108 | for n > 0 appends the clockwise star path of n corners, with all points after the first reversed in counterclockwise mode; for n < 0 appends nothing; earlier points and the flag stay |
| Shapes.PrepareRadii | src/Points.php:90-96 | the radii are the outer radius followed by every inner fraction multiplied by it, a single fraction counting as a list of one |
| Shapes.Points.AppendStar | src/Points.php:97-106 | for n > 0 appends the n·count star points of n corners stepped by 2·pi / n / count, with all after the first reversed in counterclockwise mode; for n < 0 appends nothing |
| Shapes.ScaleFractions | src/Points.php:93-95 | every inner radius fraction is multiplied by the outer radius, in place |
| Shapes.Points.AppendStarPoints | src/Points.php:99-105 | the nested loops append, corner after corner, the star points for max(n, 0) corners |
| Shapes.Points.AppendStarCorner | src/Points.php:101-104 | the inner loop appends one point per radius, at the angle reached so far, and leaves the angle advanced by delta once per radius with its cache valid |
| Shapes.Points.AddRadialPoint | src/Points.php:102 | appends the centre moved up by the radius and then rotated about the centre by the angle's cached cosine and sine |
| Shapes.AngleAtIsMultiple | src/Angle.php:61-64 | j additions of delta to an angle of 0 give j·delta |
| Shapes.AdvancedAngle | src/Points.php:99-103 | an angle created at 0 and advanced k times by delta holds k·delta, with a valid cache |
| Shapes.StarStepsIsProduct | src/Points.php:100-105 | after c corners of count points each, c·count angular steps have been taken |
| Shapes.StarPoints | src/Points.php:100-105 | the star points of c corners number one per step taken |
| Shapes.Points.Sector | src/Points.php:119-126 | appends the centre and then the point at distance radius to the right of it, rotated by the start angle and by the stop angle; in counterclockwise mode the two arc points swap |
| Shapes.Points.MapPoints | src/Points.php:135-231 | each point is replaced by its image; length, order and the flag are kept |
| Shapes.Points.Rotate | src/Points.php:135-141 | every point is rotated about the centre by the angle; length, order and the flag are kept |
| Shapes.Points.Scale | src/Points.php:150-156 | every point is scaled about the centre; length, order and the flag are kept |
| Shapes.Points.ScaleX | src/Points.php:165-171 | every point is x-scaled about the centre; length, order and the flag are kept |
| Shapes.Points.ScaleY | src/Points.php:180-186 | every point is y-scaled about the centre; length, order and the flag are kept |
| Shapes.Points.Translate | src/Points.php:195-201 | every point moves by (dx, dy); length, order and the flag are kept |
| Shapes.Points.TranslateX | src/Points.php:210-216 | every point moves by dx along x; length, order and the flag are kept |
| Shapes.Points.TranslateY | src/Points.php:225-231 | every point moves by dy along y; length, order and the flag are kept |
| ShapeFacts.RectangleCcw | src/Points.php:56-64 | clockwise the rectangle runs c, c+(w,0), c+(w,h), c+(0,h); counterclockwise it runs c, c+(0,h), c+(w,h), c+(w,0) |
| ShapeFacts.RectangleTestVectors | tests/PointsTest.php:15-26 | the rectangle at (10, 20) of width 100 and height 80 has the library's expected corners in both orders |
| ShapeFacts.StarCornerAt | src/Points.php:101-104 | point m of a corner lies at radius radii[m], first + m steps round |
| ShapeFacts.StarPointAt | src/Points.php:100-105 | star point j lies at radius radii[j mod count], at the angle reached after j steps |
| ShapeFacts.StarStepIsShareOfTurn | src/Points.php:98 | the step is 2·pi / n / count, and the n·count steps make exactly one turn |
| ShapeFacts.StarPathAt | src/Points.php:88-108 | a star with n corners and k inner radii has n·(k+1) points; point j lies at radius radii[j mod (k+1)], at j star steps |
| ShapeFacts.PolygonPathAt | src/Points.php:74-77 | a polygon has n points, and point j lies on the circle of the radius at angle j·2·pi/n |
| ShapeFacts.SectorCcw | src/Points.php:119-126 | in counterclockwise order the sector keeps its centre first and swaps the two arc points |
| ShapeFacts.SectorTestVectors | tests/PointsTest.php:89-102 | the sector about (10, 20) of radius 100 between angles with cosine and sine (l, l) and (−l, l) gives the library's expected points in both orders |
| ShapeFacts.QuarterPoint | tests/PointsTest.php:41 | given the quarter turns, a radial point turned by j quarter turns lies above, right of, below or left of the centre |
| ShapeFacts.PolygonTestVectors | tests/PointsTest.php:37-48 | given the quarter turns, the square about (10, 20) of radius 100 gives the library's expected points in both orders |
| ShapeFacts.StarStepQuarter | src/Points.php:98 | when n corners of count radii make four points, the step is a quarter turn |
| ShapeFacts.QuarterStarPoint | tests/PointsTest.php:59-78 | given the quarter turns, point j of a four-point star about (10, 20) with radii alternating 100 and 50 lies at the expected place |
| ShapeFacts.QuarterStar | tests/PointsTest.php:59-78 | given the quarter turns, a star of four points with radii alternating 100 and 50 traces top, right, bottom, left |
| ShapeFacts.StarTestVectors | tests/PointsTest.php:59-78 | given the quarter turns, both test stars (two corners with inner fraction 0.5, one corner with fractions 0.5, 1, 0.5) give the library's expected points in both orders |
| Scenarios.Fresh | src/Points.php:13-25 | a new collection, switched to counterclockwise when asked, is empty with the requested flag |
| Scenarios.RectangleScenario | tests/PointsTest.php:15-26 | the rectangle test run on the objects gives the expected points in both orders |
| Scenarios.PolygonScenario | tests/PointsTest.php:37-48 | given the quarter turns, the polygon test run on the objects gives the expected points in both orders |
| Scenarios.StarScenario | tests/PointsTest.php:59-78 | given the quarter turns, all four star tests run on the objects give the expected points |
| Scenarios.SectorScenario | tests/PointsTest.php:89-102 | given the values at 45 and 135 degrees, the sector test run on the objects gives the expected points in both orders |
| Scenarios.AddedPointIsACopy | src/Points.php:42-45 | moving a point after adding it leaves the stored copy unchanged |
| Scenarios.RotatedCopy | src/Point.php:33-40 | rotating a fresh point about a fresh centre gives the rotation-matrix image |
| Scenarios.RotateScenario | tests/PointTest.php:13-28 | the eight rotations by 60 degrees give the library's expected points, written in terms of that angle's cached cosine and sine |
| Scenarios.ScaleScenario | tests/PointTest.php:40-45 | halving (100, 200) about (0, 0) and about (50, 50) gives (50, 100) and (75, 125) |
| Scenarios.TranslateScenario | tests/PointTest.php:99-102 | moving (20.5, 10) by (4.5, 15) gives (25, 25) |

Functions the contracts are written in, and the source expression each
stands for:

- `Angles.Deg2Rad`: PHP's `deg2rad`, used at src/Angle.php:30, 53 and 73 and at
  src/Points.php:98.
- `Shapes.RectanglePath`: the four corners appended at src/Points.php:58-62.
- `Shapes.StarRadiiOf` and `Shapes.FractionsOf`: the radii list built at
  src/Points.php:90-96.
- `Shapes.StarStep`: the angular step `deg2rad(360) / $n / $count` at
  src/Points.php:98.
- `Shapes.AngleAt`: the value of `$angle` after j calls of `add($delta)` at
  src/Points.php:99-103.
- `Shapes.RadialPoint`: one `addPoint($center)->translateY(-$radius)->rotate(...)`
  chain, src/Points.php:102.
- `Shapes.StarCorner`, `Shapes.StarPoints` and `Shapes.StarPath`: the points
  the nested loops of src/Points.php:100-105 produce, for one corner, for c
  corners, and for the whole star.
- `Shapes.ArcPoint` and `Shapes.SectorPath`: the centre and the two arc
  points appended at src/Points.php:121-124.
- `Winding.ReverseTail` and `Winding.Oriented`: what `reverseIfCcw` at
  src/Points.php:243-252 does to the points.

## Left out

- True values of sine, cosine, tangent and pi: they are arbitrary tables and
  an arbitrary positive constant. The polygon, star and sector test vectors
  are proved only under hypotheses about the trigonometric values at the
  angles they use. The rotate test vectors are stated in terms of the
  angle's own cached values, as the test does.
- IEEE floating-point rounding: coordinates are exact reals, so the model
  has no rounding.
- PHP's dynamic typing and type juggling: arguments are typed (`real`,
  `int`, `Point`, `Angle`).
- The magic accessors `__get` of `Points`, `Point` and `Angle`, and
  `getIterator` of `Points`, are public fields (`points`, `x`, `y`,
  `radians`, `sin`, `cos`, `tan`). `Points.points` holds values. In the
  library the accessors hand out the stored point objects, which a caller
  could then move directly. The model does not capture that aliasing. In
  the library these fields are private and read-only from outside. In the
  model any caller can assign them, and assigning `sin`, `cos` or `tan` of
  an `Angle` directly breaks `Valid()`. Only the class's own methods are
  proved to keep the cache valid.
- Shapes.Points.AddPoint: does not return the stored copy as the library
  does. Each fluent chain on that copy is instead an update of the last
  element by the function the corresponding `Point` method is proved to
  compute.
- Shapes.Points.Star and Shapes.Points.Polygon: require `n != 0`. For
  `n = 0` the library divides by zero, so that case is excluded rather than modelled. A negative `n`
  is modelled: nothing is appended.
- Shapes.Points.Star: the `is_array` test on the star radii is a datatype
  with a single-fraction case and a list case.
- Shapes.Points.ReverseIfCcw: requires `n` not to exceed the number of
  stored points. Every generator calls it with at most the number of points
  it has just appended. A larger `n` would index below the array in the
  library.
- Shapes.Points.Rotate, Scale, ScaleX, ScaleY, Translate, TranslateX and
  TranslateY apply the value function to each stored value. They do not
  call the `Point` methods on stored objects. They read the centre once,
  before the loop. In the library a centre taken from the collection
  itself stays put anyway, because it is a fixed point of the rotation or
  scale about itself.
- The `skewX`/`skewY` operations and the generators `ringSector`,
  `rotated`, `roundedRectangle` and `addPoints` are not part of this
  model: the three source classes do not define them.
