/**
 * MergeLine: a DXF line segment seen as a piece of an infinite line, with its
 * two ends ordered along the line, its slope and its intercept, each kept to
 * four decimal places and remembered once computed.
 */
module DxfLines {
  import opened Wrappers
  import opened Numeric

  /** Decimal places kept by the slope, the intercept and the vertical test. */
  const FractionalDigits: nat := 4

  /** `decimal.MaxValue`, the slope given to a vertical line. */
  const DecimalMax: real := 79228162514264337593543950335.0

  /** Half a unit in the fourth decimal place: the most that rounding moves a value. */
  const HalfUnit: real := 0.00005

  datatype DxfPoint = DxfPoint(x: real, y: real, z: real)

  datatype DxfLine = DxfLine(p1: DxfPoint, p2: DxfPoint)

  /** The same segment drawn the other way round. */
  function Reversed(l: DxfLine): (r: DxfLine)
    ensures r.p1 == l.p2 && r.p2 == l.p1
  {
    DxfLine(l.p2, l.p1)
  }

  /** A line is vertical when its ends have the same X once rounded to four places. */
  predicate IsVertical(l: DxfLine)
  {
    RoundTo(l.p1.x, FractionalDigits) == RoundTo(l.p2.x, FractionalDigits)
  }

  /**
   * The vertical test does not depend on the direction of the segment; ends
   * with the same X make a vertical line, and the ends of a vertical line are
   * at most one unit of the fourth decimal place apart in X.
   */
  lemma VerticalFacts(l: DxfLine)
    ensures IsVertical(Reversed(l)) <==> IsVertical(l)
    ensures l.p1.x == l.p2.x ==> IsVertical(l)
    ensures IsVertical(l) ==> Abs(l.p1.x - l.p2.x) <= 2.0 * HalfUnit
  {
    Rounding(l.p1.x);
    Rounding(l.p2.x);
  }

  /** Rounding to four places moves a value by at most half a unit of the last place. */
  lemma Rounding(x: real)
    ensures Abs(RoundTo(x, FractionalDigits) - x) <= HalfUnit
  {
    assert Pow10(FractionalDigits) == 10000.0 by {
      assert Pow10(1) == 10.0;
      assert Pow10(2) == 100.0;
      assert Pow10(3) == 1000.0;
    }
  }

  /**
   * SetLeftRight: the two ends, lower first along the line. A vertical line
   * is ordered by Y and any other by X; P1 comes first only when it is
   * strictly lower, so a vertical line with level ends starts at P2.
   */
  function Ends(l: DxfLine): (r: (DxfPoint, DxfPoint))
    ensures r == (l.p1, l.p2) || r == (l.p2, l.p1)
    ensures IsVertical(l) ==> r.0.y <= r.1.y
    ensures !IsVertical(l) ==> r.0.x < r.1.x
    ensures IsVertical(l) && l.p1.y == l.p2.y ==> r == (l.p2, l.p1)
  {
    if IsVertical(l) then
      if l.p1.y < l.p2.y then (l.p1, l.p2) else (l.p2, l.p1)
    else if l.p1.x < l.p2.x then (l.p1, l.p2)
    else (l.p2, l.p1)
  }

  function Left(l: DxfLine): (p: DxfPoint)
    ensures p == Ends(l).0
  {
    Ends(l).0
  }

  function Right(l: DxfLine): (p: DxfPoint)
    ensures p == Ends(l).1
  {
    Ends(l).1
  }

  /**
   * The order of the ends does not depend on the direction of the segment,
   * except for a vertical segment whose ends are level.
   */
  lemma EndsReversed(l: DxfLine)
    requires !(IsVertical(l) && l.p1.y == l.p2.y)
    ensures Ends(Reversed(l)) == Ends(l)
  {
    VerticalFacts(l);
  }

  /** The gradient of the segment, whichever way it is drawn. */
  function Gradient(l: DxfLine): (g: real)
    requires l.p1.x != l.p2.x
  {
    (l.p2.y - l.p1.y) / (l.p2.x - l.p1.x)
  }

  lemma GradientReversed(l: DxfLine)
    requires l.p1.x != l.p2.x
    ensures Gradient(Reversed(l)) == Gradient(l)
  {
    var dy, dx := l.p2.y - l.p1.y, l.p2.x - l.p1.x;
    assert (-dy) / (-dx) == dy / dx by {
      assert (-dy) == (dy / dx) * (-dx);
    }
  }

  /**
   * CalcSlope: decimal.MaxValue for a vertical line; otherwise the gradient
   * from the left end to the right end, rounded to four decimal places.
   */
  function Slope(l: DxfLine): (r: real)
    ensures IsVertical(l) ==> r == DecimalMax
  {
    if IsVertical(l) then DecimalMax
    else
      var lo, hi := Left(l), Right(l);
      RoundTo((hi.y - lo.y) / (hi.x - lo.x), FractionalDigits)
  }

  /**
   * The slope of a line that is not vertical is its gradient, whichever way
   * the segment is drawn, to within the rounding.
   */
  lemma SlopeNearGradient(l: DxfLine)
    requires !IsVertical(l)
    ensures l.p1.x != l.p2.x && Abs(Slope(l) - Gradient(l)) <= HalfUnit
  {
    var lo, hi := Left(l), Right(l);
    VerticalFacts(l);
    Rounding((hi.y - lo.y) / (hi.x - lo.x));
    assert (hi.y - lo.y) / (hi.x - lo.x) == Gradient(l) by {
      if lo != l.p1 {
        GradientReversed(l);
      }
    }
  }

  /** The slope does not depend on the direction of the segment. */
  lemma SlopeReversed(l: DxfLine)
    ensures Slope(Reversed(l)) == Slope(l)
  {
    VerticalFacts(l);
    if !IsVertical(l) {
      EndsReversed(l);
    }
  }

  /**
   * CalcIntercept: the rounded X of P1 for a vertical line; otherwise P1's Y
   * less the rounded slope times P1's X, rounded to four places.
   */
  function Intercept(l: DxfLine): real
  {
    if IsVertical(l) then RoundTo(l.p1.x, FractionalDigits)
    else InterceptWith(l.p1.y, Slope(l), l.p1.x)
  }

  /** The intercept of the line through (x, y) with slope s, rounded to four places. */
  function InterceptWith(y: real, s: real, x: real): real
  {
    RoundTo(y - s * x, FractionalDigits)
  }

  lemma InterceptWithNear(y: real, s: real, x: real)
    ensures Abs(InterceptWith(y, s, x) - (y - s * x)) <= HalfUnit
  {
    Rounding(y - s * x);
  }

  /** A vertical line's intercept is the X of either end, to within the rounding. */
  lemma InterceptOfVertical(l: DxfLine)
    requires IsVertical(l)
    ensures Abs(Intercept(l) - l.p1.x) <= HalfUnit && Abs(Intercept(l) - l.p2.x) <= HalfUnit
  {
    Rounding(l.p1.x);
    Rounding(l.p2.x);
    assert Intercept(l) == RoundTo(l.p2.x, FractionalDigits);
  }

  /**
   * Any other line's intercept is where the line through P1 with its slope
   * crosses X = 0, to within the rounding.
   */
  lemma InterceptOfSloped(l: DxfLine, s: real)
    requires !IsVertical(l) && s == Slope(l)
    ensures Abs(Intercept(l) - (l.p1.y - s * l.p1.x)) <= HalfUnit
  {
    InterceptWithNear(l.p1.y, s, l.p1.x);
    assert Intercept(l) == InterceptWith(l.p1.y, s, l.p1.x);
  }

  /** A vertical line's intercept does not depend on the direction of the segment. */
  lemma InterceptVerticalReversed(l: DxfLine)
    requires IsVertical(l)
    ensures Intercept(Reversed(l)) == Intercept(l)
  {
    VerticalFacts(l);
  }

  /**
   * A MergeLine object: the line it wraps and the slope, intercept and ends
   * it has worked out so far, each computed on first use and then kept.
   */
  class MergeLine {
    const line: DxfLine
    var slope: Option<real>
    var intercept: Option<real>
    var left: Option<DxfPoint>
    var right: Option<DxfPoint>

    /** Whatever has been remembered is what the line gives; the ends are remembered together. */
    ghost predicate Valid()
      reads this
    {
      (slope.Some? ==> slope.value == Slope(line)) &&
      (intercept.Some? ==> intercept.value == Intercept(line)) &&
      (left.Some? <==> right.Some?) &&
      (left.Some? ==> left.value == Left(line) && right.value == Right(line))
    }

    constructor (line: DxfLine)
      ensures this.line == line && Valid()
      ensures slope.None? && intercept.None? && left.None? && right.None?
    {
      this.line := line;
      slope, intercept, left, right := Option.None, Option.None, Option.None, Option.None;
    }

    /** SetLeftRight: both ends are worked out and kept. */
    method SetLeftRight()
      requires Valid()
      modifies this`left, this`right
      ensures Valid()
      ensures left == Option.Some(Left(line)) && right == Option.Some(Right(line))
    {
      if IsVertical(line) {
        if line.p1.y < line.p2.y {
          left, right := Option.Some(line.p1), Option.Some(line.p2);
        } else {
          left, right := Option.Some(line.p2), Option.Some(line.p1);
        }
      } else if line.p1.x < line.p2.x {
        left, right := Option.Some(line.p1), Option.Some(line.p2);
      } else {
        left, right := Option.Some(line.p2), Option.Some(line.p1);
      }
    }

    /** Left: the lower end, working out both ends on first use. */
    method GetLeft() returns (p: DxfPoint)
      requires Valid()
      modifies this`left, this`right
      ensures Valid() && p == Left(line)
      ensures left == Option.Some(Left(line)) && right == Option.Some(Right(line))
    {
      if left.None? {
        SetLeftRight();
      }
      p := left.value;
    }

    /** Right: the upper end, working out both ends on first use. */
    method GetRight() returns (p: DxfPoint)
      requires Valid()
      modifies this`left, this`right
      ensures Valid() && p == Right(line)
      ensures left == Option.Some(Left(line)) && right == Option.Some(Right(line))
    {
      if right.None? {
        SetLeftRight();
      }
      p := right.value;
    }

    /**
     * Slope: the remembered slope, or the slope worked out and kept; working
     * it out for a line that is not vertical also works out its ends.
     */
    method GetSlope() returns (r: real)
      requires Valid()
      modifies this`slope, this`left, this`right
      ensures Valid() && r == Slope(line) && slope == Option.Some(r)
      ensures old(slope).Some? || IsVertical(line) ==> left == old(left) && right == old(right)
      ensures old(slope).None? && !IsVertical(line) ==>
        left == Option.Some(Left(line)) && right == Option.Some(Right(line))
    {
      if slope.Some? {
        return slope.value;
      }
      if IsVertical(line) {
        r := DecimalMax;
      } else {
        var hi := GetRight();
        var lo := GetLeft();
        r := RoundTo((hi.y - lo.y) / (hi.x - lo.x), FractionalDigits);
      }
      slope := Option.Some(r);
    }

    /**
     * Intercept: the remembered intercept, or the intercept worked out and
     * kept; for a line that is not vertical this goes through the slope.
     */
    method GetIntercept() returns (r: real)
      requires Valid()
      modifies this`intercept, this`slope, this`left, this`right
      ensures Valid() && r == Intercept(line) && intercept == Option.Some(r)
      ensures old(intercept).Some? || IsVertical(line) ==>
        slope == old(slope) && left == old(left) && right == old(right)
      ensures old(intercept).None? && !IsVertical(line) ==> slope == Option.Some(Slope(line))
    {
      if intercept.Some? {
        return intercept.value;
      }
      if IsVertical(line) {
        r := RoundTo(line.p1.x, FractionalDigits);
      } else {
        var s := GetSlope();
        r := InterceptWith(line.p1.y, s, line.p1.x);
      }
      intercept := Option.Some(r);
    }
  }
}
