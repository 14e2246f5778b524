/**
 * Integer 2D points (Point2DBase<int>, called Point2DInt): the value algebra
 * of the operators, and the point object whose setters and compound
 * assignments change its coordinates in place.
 */
module Point2D {
  /** The value a point holds. */
  datatype Point = Point(x: int, y: int) {
    /** operator+: componentwise sum; subtracting `o` again gives this point back. */
    function Plus(o: Point): (r: Point)
      ensures r.Minus(o) == this
    {
      Point(x + o.x, y + o.y)
    }

    /** operator-: componentwise difference; adding `o` again gives this point back. */
    function Minus(o: Point): (r: Point)
      ensures Point(r.x + o.x, r.y + o.y) == this
    {
      Point(x - o.x, y - o.y)
    }

    /** operator*(T): scales both coordinates; 0 collapses to the origin, 1 keeps the point, -1 negates it. */
    function Times(factor: int): (r: Point)
      ensures factor == 0 ==> r == Point(0, 0)
      ensures factor == 1 ==> r == this
      ensures factor == -1 ==> r.Plus(this) == Point(0, 0)
    {
      Point(x * factor, y * factor)
    }

    /** operator==: true exactly when the two points are the same value. */
    function Equal(o: Point): (r: bool)
      ensures r <==> this == o
    {
      x == o.x && y == o.y
    }

    /** operator!=: the negation of operator==. */
    function NotEqual(o: Point): (r: bool)
      ensures r <==> this != o
    {
      !Equal(o)
    }

    /** operator*(Point): the dot product; against the unit points it picks out a coordinate. */
    function Dot(o: Point): (r: int)
      ensures o == Point(0, 0) ==> r == 0
      ensures o == Point(1, 0) ==> r == x
      ensures o == Point(0, 1) ==> r == y
    {
      x * o.x + y * o.y
    }

    /** normquadrat: the squared length, the dot product of the point with itself. */
    function NormQuadrat(): (r: int)
      ensures r >= 0 && r == Dot(this)
    {
      SquareNonNegative(x);
      SquareNonNegative(y);
      x * x + y * y
    }
  }

  lemma SquareNonNegative(a: int)
    ensures a * a >= 0
  {
    if a < 0 {
      assert a * a == (-a) * (-a);
    }
  }

  /** The dot product does not depend on the order of its operands. */
  lemma DotSymmetric(a: Point, b: Point)
    ensures a.Dot(b) == b.Dot(a)
  {
  }

  /** (a + b) - b == a and (a - b) + b == a. */
  lemma PlusMinusInverse(a: Point, b: Point)
    ensures a.Plus(b).Minus(b) == a && a.Minus(b).Plus(b) == a
  {
  }

  /** Scaling distributes over the sum, so it is componentwise. */
  lemma TimesDistributes(a: Point, b: Point, f: int)
    ensures a.Plus(b).Times(f) == a.Times(f).Plus(b.Times(f))
    ensures a.Times(f).Dot(b) == f * a.Dot(b)
  {
    assert (a.x + b.x) * f == a.x * f + b.x * f;
    assert (a.y + b.y) * f == a.y * f + b.y * f;
    assert a.x * f * b.x + a.y * f * b.y == f * (a.x * b.x + a.y * b.y);
  }

  /** A point object, updated in place by its setters and compound assignments. */
  class Point2DInt {
    var x: int
    var y: int

    function Value(): Point
      reads this
    {
      Point(x, y)
    }

    /** The default constructor: both coordinates are value-initialised. */
    constructor Origin()
      ensures Value() == Point(0, 0)
    {
      x := 0;
      y := 0;
    }

    constructor(x: int, y: int)
      ensures Value() == Point(x, y)
    {
      this.x := x;
      this.y := y;
    }

    function GetX(): (r: int)
      reads this
      ensures r == Value().x
    {
      x
    }

    function GetY(): (r: int)
      reads this
      ensures r == Value().y
    {
      y
    }

    method SetX(v: int)
      modifies this
      ensures Value() == old(Value()).(x := v)
    {
      x := v;
    }

    method SetY(v: int)
      modifies this
      ensures Value() == old(Value()).(y := v)
    {
      y := v;
    }

    /** operator+=: the point becomes what operator+ returns. */
    method AddAssign(o: Point)
      modifies this
      ensures Value() == old(Value()).Plus(o)
    {
      x := x + o.x;
      y := y + o.y;
    }

    /** operator*=: the point becomes what operator*(T) returns. */
    method MulAssign(factor: int)
      modifies this
      ensures Value() == old(Value()).Times(factor)
    {
      x := x * factor;
      y := y * factor;
    }
  }
}
