/** Angles: a radian value together with a cache of its sine, cosine and
    tangent. The trigonometric functions and pi are left uninterpreted: the
    model only relies on the cache agreeing with them, never on their values. */
module Angles {

  type Positive = r: real | 0.0 < r witness 1.0

  /** The circle constant; only its positivity is known. */
  const Pi: Positive

  /** A finite table of values: a list of (argument, value) entries. */
  datatype Table = Empty | Entry(key: real, value: real, rest: Table)

  /** Sine, cosine and tangent are left uninterpreted: each is an arbitrary
      table of values, read as 0 where it has no entry, so that nothing about
      the true functions can be relied on. */
  const sine: Table
  const cosine: Table
  const tangent: Table

  /** The value the first entry for `theta` holds, or 0 when there is none. */
  function Lookup(table: Table, theta: real): real
  {
    match table
    case Empty => 0.0
    case Entry(key, value, rest) => if key == theta then value else Lookup(rest, theta)
  }

  function Sin(theta: real): real { Lookup(sine, theta) }
  function Cos(theta: real): real { Lookup(cosine, theta) }
  function Tan(theta: real): real { Lookup(tangent, theta) }

  /** Degrees to radians, `degrees * pi / 180`. */
  function Deg2Rad(degrees: real): real
  {
    degrees * Pi / 180.0
  }

  /** A full turn of 360 degrees is 2 pi radians, and 180 degrees is pi. */
  lemma Deg2RadTurn()
    ensures Deg2Rad(360.0) == 2.0 * Pi
    ensures Deg2Rad(180.0) == Pi
  {
  }

  /** Converting a sum of degrees is the sum of the conversions. */
  lemma Deg2RadAdditive(d1: real, d2: real)
    ensures Deg2Rad(d1 + d2) == Deg2Rad(d1) + Deg2Rad(d2)
  {
  }

  class Angle {
    var radians: real
    var sin: real
    var cos: real
    var tan: real

    /** The cached values belong to the current radian value. */
    ghost predicate Valid()
      reads this
    {
      sin == Sin(radians) && cos == Cos(radians) && tan == Tan(radians)
    }

    /** An angle whose fields are not set yet. */
    constructor ()
    {
    }

    /** A new angle of `radians`. */
    static method Create(radians: real) returns (a: Angle)
      ensures fresh(a) && a.Valid()
      ensures a.radians == radians
    {
      a := new Angle();
      a.Set(radians);
    }

    /** A new angle of `degrees`, converted to radians. */
    static method ByDegrees(degrees: real) returns (a: Angle)
      ensures fresh(a) && a.Valid()
      ensures a.radians == Deg2Rad(degrees)
    {
      a := Create(Deg2Rad(degrees));
    }

    /** Resets the angle to `radians` and recomputes the cache. */
    method Set(radians: real)
      modifies this
      ensures Valid()
      ensures this.radians == radians
    {
      this.radians := radians;
      sin := Sin(radians);
      cos := Cos(radians);
      tan := Tan(radians);
    }

    /** Resets the angle to `degrees`, converted to radians. */
    method SetDegrees(degrees: real)
      modifies this
      ensures Valid()
      ensures radians == Deg2Rad(degrees)
    {
      Set(Deg2Rad(degrees));
    }

    /** Adds `delta` radians; the cache follows the new value. */
    method Add(delta: real)
      modifies this
      ensures Valid()
      ensures radians == old(radians) + delta
    {
      Set(radians + delta);
    }

    /** Adds `degrees`, converted to radians. */
    method AddDegrees(degrees: real)
      modifies this
      ensures Valid()
      ensures radians == old(radians) + Deg2Rad(degrees)
    {
      Add(Deg2Rad(degrees));
    }
  }

  /** Adding `d1` degrees and then `d2` degrees to an angle adds the radians
      of `d1 + d2`, and the cache follows. */
  method AddDegreesInSteps(a: Angle, d1: real, d2: real)
    modifies a
    ensures a.Valid() && a.radians == old(a.radians) + Deg2Rad(d1 + d2)
  {
    a.AddDegrees(d1);
    a.AddDegrees(d2);
    Deg2RadAdditive(d1, d2);
  }
}
