/** Points of the plane and the affine operations on them: rotation, scaling
    and translation about an arbitrary centre. The operations are first given
    as functions on coordinate values, then as the in-place mutators of a
    `Point` object, each proved to produce the value the function describes. */
module Geometry {
  import opened Angles

  datatype Pt = Pt(x: real, y: real)

  /** The cosine and sine an angle contributes to a rotation. */
  datatype Rotation = Rotation(cos: real, sin: real)

  /** The rotation by `theta` radians. */
  function RotationOf(theta: real): Rotation
  {
    Rotation(Cos(theta), Sin(theta))
  }

  /** `p` rotated about `c`: the offset from the centre is multiplied by the
      rotation matrix. */
  function Rotated(p: Pt, c: Pt, r: Rotation): Pt
  {
    var dx, dy := p.x - c.x, p.y - c.y;
    Pt(dx * r.cos - dy * r.sin + c.x, dy * r.cos + dx * r.sin + c.y)
  }

  /** The coordinate `v` moved to `f` times its offset from `m`. */
  function Stretched(v: real, m: real, f: real): real
  {
    (v - m) * f + m
  }

  /** The x-offset of `p` from `c` multiplied by `f`. */
  function ScaledX(p: Pt, c: Pt, f: real): Pt
  {
    Pt(Stretched(p.x, c.x, f), p.y)
  }

  /** The y-offset of `p` from `c` multiplied by `f`. */
  function ScaledY(p: Pt, c: Pt, f: real): Pt
  {
    Pt(p.x, Stretched(p.y, c.y, f))
  }

  /** Both offsets of `p` from `c` multiplied by `f`. */
  function Scaled(p: Pt, c: Pt, f: real): Pt
  {
    Pt(Stretched(p.x, c.x, f), Stretched(p.y, c.y, f))
  }

  function TranslatedX(p: Pt, dx: real): Pt
  {
    Pt(p.x + dx, p.y)
  }

  function TranslatedY(p: Pt, dy: real): Pt
  {
    Pt(p.x, p.y + dy)
  }

  function Translated(p: Pt, dx: real, dy: real): Pt
  {
    Pt(p.x + dx, p.y + dy)
  }

  function SquaredDistance(p: Pt, q: Pt): real
  {
    (p.x - q.x) * (p.x - q.x) + (p.y - q.y) * (p.y - q.y)
  }

  /** A uniform scale is the x-scale followed by the y-scale, in either order. */
  lemma ScaleIsScaleXThenScaleY(p: Pt, c: Pt, f: real)
    ensures Scaled(p, c, f) == ScaledY(ScaledX(p, c, f), c, f)
    ensures Scaled(p, c, f) == ScaledX(ScaledY(p, c, f), c, f)
  {
  }

  /** Scaling by 1 changes nothing, and the centre is a fixed point of every scale. */
  lemma ScaleIdentityAndCentre(p: Pt, c: Pt, f: real)
    ensures Scaled(p, c, 1.0) == p
    ensures Scaled(c, c, f) == c
  {
  }

  /** Scaling by `f1` and then by `f2` about the same centre is scaling by `f1 * f2`. */
  lemma ScaleComposes(p: Pt, c: Pt, f1: real, f2: real)
    ensures Scaled(Scaled(p, c, f1), c, f2) == Scaled(p, c, f1 * f2)
  {
    var q := Scaled(p, c, f1);
    assert q.x - c.x == (p.x - c.x) * f1;
    assert q.y - c.y == (p.y - c.y) * f1;
    assert (q.x - c.x) * f2 == (p.x - c.x) * (f1 * f2);
    assert (q.y - c.y) * f2 == (p.y - c.y) * (f1 * f2);
  }

  /** Translation is the x-translation followed by the y-translation. */
  lemma TranslateIsTranslateXThenTranslateY(p: Pt, dx: real, dy: real)
    ensures Translated(p, dx, dy) == TranslatedY(TranslatedX(p, dx), dy)
    ensures Translated(p, dx, dy) == TranslatedX(TranslatedY(p, dy), dx)
  {
  }

  /** The rotation with cosine 1 and sine 0 changes nothing, and the centre is
      a fixed point of every rotation. */
  lemma RotateIdentityAndCentre(p: Pt, c: Pt, r: Rotation)
    ensures Rotated(p, c, Rotation(1.0, 0.0)) == p
    ensures Rotated(c, c, r) == c
  {
  }

  /** A rotation whose cosine and sine lie on the unit circle keeps the
      distance to the centre. */
  lemma RotatePreservesDistance(p: Pt, c: Pt, r: Rotation)
    requires r.cos * r.cos + r.sin * r.sin == 1.0
    ensures SquaredDistance(Rotated(p, c, r), c) == SquaredDistance(p, c)
  {
    var dx, dy := p.x - c.x, p.y - c.y;
    var q := Rotated(p, c, r);
    var a, b := dx * r.cos - dy * r.sin, dy * r.cos + dx * r.sin;
    assert q.x - c.x == a && q.y - c.y == b;
    calc {
      a * a + b * b;
      == (dx * dx) * (r.cos * r.cos + r.sin * r.sin) + (dy * dy) * (r.cos * r.cos + r.sin * r.sin);
      == dx * dx + dy * dy;
    }
  }

  /** Rotating by (cos, sin) and then by (cos, -sin), the opposite angle, about
      the same centre returns to the start when (cos, sin) is on the unit circle. */
  lemma RotateThenUnrotate(p: Pt, c: Pt, r: Rotation)
    requires r.cos * r.cos + r.sin * r.sin == 1.0
    ensures Rotated(Rotated(p, c, r), c, Rotation(r.cos, -r.sin)) == p
  {
    var dx, dy := p.x - c.x, p.y - c.y;
    var a, b := dx * r.cos - dy * r.sin, dy * r.cos + dx * r.sin;
    calc {
      a * r.cos + b * r.sin;
      == dx * (r.cos * r.cos + r.sin * r.sin);
      == dx;
    }
    calc {
      b * r.cos - a * r.sin;
      == dy * (r.cos * r.cos + r.sin * r.sin);
      == dy;
    }
  }

  class Point {
    var x: real
    var y: real

    function Value(): Pt
      reads this
    {
      Pt(x, y)
    }

    /** A point whose coordinates are not set yet. */
    constructor ()
    {
    }

    /** A new point at (x, y). */
    static method Create(x: real, y: real) returns (p: Point)
      ensures fresh(p)
      ensures p.Value() == Pt(x, y)
    {
      p := new Point();
      p.x := x;
      p.y := y;
    }

    /** Rotates the point about `center` by the cached cosine and sine of
        `angle`; both new coordinates are computed from the old ones. */
    method Rotate(center: Point, angle: Angle) returns (self: Point)
      modifies this
      ensures self == this
      ensures Value() == Rotated(old(Value()), old(center.Value()), Rotation(angle.cos, angle.sin))
    {
      var dx := x - center.x;
      var dy := y - center.y;
      x := dx * angle.cos - dy * angle.sin + center.x;
      y := dy * angle.cos + dx * angle.sin + center.y;
      self := this;
    }

    /** Scales the offset from `center` by `factor`: the x-scale, then the y-scale. */
    method Scale(center: Point, factor: real) returns (self: Point)
      modifies this
      ensures self == this
      ensures Value() == Scaled(old(Value()), old(center.Value()), factor)
    {
      self := ScaleX(center, factor);
      self := self.ScaleY(center, factor);
    }

    method ScaleX(center: Point, factor: real) returns (self: Point)
      modifies this
      ensures self == this
      ensures Value() == ScaledX(old(Value()), old(center.Value()), factor)
    {
      x := (x - center.x) * factor + center.x;
      self := this;
    }

    method ScaleY(center: Point, factor: real) returns (self: Point)
      modifies this
      ensures self == this
      ensures Value() == ScaledY(old(Value()), old(center.Value()), factor)
    {
      y := (y - center.y) * factor + center.y;
      self := this;
    }

    /** Moves the point by (dx, dy): the x-move, then the y-move. */
    method Translate(dx: real, dy: real) returns (self: Point)
      modifies this
      ensures self == this
      ensures Value() == Translated(old(Value()), dx, dy)
    {
      self := TranslateX(dx);
      self := self.TranslateY(dy);
    }

    method TranslateX(dx: real) returns (self: Point)
      modifies this
      ensures self == this
      ensures Value() == TranslatedX(old(Value()), dx)
    {
      x := x + dx;
      self := this;
    }

    method TranslateY(dy: real) returns (self: Point)
      modifies this
      ensures self == this
      ensures Value() == TranslatedY(old(Value()), dy)
    {
      y := y + dy;
      self := this;
    }

    /** A new point with the same coordinates. */
    method Copy() returns (p: Point)
      ensures fresh(p)
      ensures p.Value() == Value()
    {
      p := Create(x, y);
    }
  }

  /** A copy and its original are independent: moving the copy leaves the
      original where it was, and moving the original afterwards leaves the
      copy where it was. */
  method CopyIsIndependent(p: Point, dx: real, dy: real) returns (q: Point)
    modifies p
    ensures fresh(q)
    ensures q.Value() == TranslatedX(old(p.Value()), dx)
    ensures p.Value() == TranslatedY(old(p.Value()), dy)
  {
    q := p.Copy();
    q := q.TranslateX(dx);
    var moved := p.TranslateY(dy);
  }
}
