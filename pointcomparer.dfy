/** SvgPointCloseEqualityComparer: points equal up to an inclusive tolerance of 0.0001. */
module PointComparer {
  import opened Wrappers
  import opened Numeric
  import opened Geometry

  const Precision: real := 0.0001

  /** CloseEqual: the distance is at most the precision, bound included. */
  predicate CloseEqual(a: real, b: real, precision: real)
  {
    Abs(a - b) <= precision
  }

  /** Equals: both coordinates within the precision and both flags the same. */
  predicate CloseEquals(p: Point, q: Point)
  {
    CloseEqual(p.x, q.x, Precision) && CloseEqual(p.y, q.y, Precision) &&
    p.exact == q.exact && p.marked == q.marked
  }

  /** The comparer is reflexive and symmetric; the bound itself counts as equal. */
  lemma CloseEqualsProperties(p: Point, q: Point)
    ensures CloseEquals(p, p)
    ensures CloseEquals(p, q) ==> CloseEquals(q, p)
    ensures q == p.(x := p.x + Precision) ==> CloseEquals(p, q)
    ensures q == p.(x := p.x + 2.0 * Precision) ==> !CloseEquals(p, q)
    ensures CloseEquals(p, q) ==> Abs(p.x - q.x) <= Precision && Abs(p.y - q.y) <= Precision
  {
  }

  /** It is not transitive: three points one precision step apart. */
  lemma NotTransitive()
    ensures var a, b, c := Point(0.0, 0.0, true, false), Point(Precision, 0.0, true, false), Point(2.0 * Precision, 0.0, true, false);
      CloseEquals(a, b) && CloseEquals(b, c) && !CloseEquals(a, c)
  {
  }

  /** GetHashCode always throws NotImplementedException. */
  function GetHashCode(p: Point): (r: Result<int>)
    ensures r.Failure?
  {
    Failure("NotImplementedException")
  }
}
