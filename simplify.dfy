/**
 * Polyline simplification (`Simplify`): a radial-distance pass that drops
 * points too close to the last point kept, and a Ramer–Douglas–Peucker pass
 * that keeps, recursively, the point farthest from the current segment when
 * it lies beyond the tolerance. Both keep an in-order selection of their
 * input that starts with the first point and ends with the last.
 *
 * Tolerances are squared distances and may be absent (C# `double?`): a
 * comparison with an absent tolerance is false. Points are values here, so
 * the clones the source returns are equal to the points they copy, and a
 * point's identity is its position in the input.
 */
module Simplification {
  import opened Wrappers
  import opened Geometry
  import opened Sorting

  // ---------------------------------------------------------------------
  // Distances
  // ---------------------------------------------------------------------

  /** `GetSqDist`: the squared distance between two points. */
  function SqDist(p1: Point, p2: Point): (r: real)
    ensures r >= 0.0
  {
    var dx := p1.x - p2.x;
    var dy := p1.y - p2.y;
    Square(dx) + Square(dy)
  }

  /** A square is never negative, and positive for anything but zero. */
  function Square(a: real): (r: real)
    ensures r >= 0.0 && (a != 0.0 ==> r > 0.0)
  {
    SquareSign(a);
    Mul(a, a)
  }

  lemma SquareSign(a: real)
    ensures Mul(a, a) >= 0.0 && (a != 0.0 ==> Mul(a, a) > 0.0)
  {
    if a > 0.0 {
      MulPositive(a, a);
    } else if a < 0.0 {
      MulNegative(a, a);
    }
  }

  /** A product, kept as a function so that facts about it carry over between equal arguments. */
  function Mul(a: real, b: real): real
  {
    a * b
  }

  lemma MulNegative(a: real, b: real)
    requires a < 0.0 && b < 0.0
    ensures Mul(a, b) > 0.0
  {
  }

  lemma MulPositive(a: real, b: real)
    requires a > 0.0 && b > 0.0
    ensures Mul(a, b) > 0.0
  {
  }

  /** The squared distance is symmetric, and zero exactly for points at the same place. */
  lemma SqDistFacts(p1: Point, p2: Point)
    ensures SqDist(p1, p2) == SqDist(p2, p1)
    ensures p1.x == p2.x && p1.y == p2.y ==> SqDist(p1, p2) == 0.0
    ensures p1.x != p2.x || p1.y != p2.y ==> SqDist(p1, p2) > 0.0
  {
    assert Square(p1.x - p2.x) == Square(p2.x - p1.x);
    assert Square(p1.y - p2.y) == Square(p2.y - p1.y);
  }

  /**
   * The parameter of p's projection on the line through p1 and p2 (0 at p1,
   * 1 at p2); only meaningful for a segment of positive length.
   */
  function Projection(p: Point, p1: Point, p2: Point): real
    requires p1.x != p2.x || p1.y != p2.y
  {
    var dx := p2.x - p1.x;
    var dy := p2.y - p1.y;
    Dot(p.x - p1.x, p.y - p1.y, dx, dy) / Length2(dx, dy)
  }

  /**
   * `GetSqSegDist`: the squared distance from p to the point of the segment
   * p1–p2 nearest to it: p2 beyond the segment's end, p1 before its start
   * (and for a segment of no length), the projection in between.
   */
  function SegSqDist(p: Point, p1: Point, p2: Point): (r: real)
    ensures r >= 0.0
    ensures p1.x == p2.x && p1.y == p2.y ==> r == SqDist(p, p1)
    ensures (p1.x != p2.x || p1.y != p2.y) && Projection(p, p1, p2) > 1.0 ==> r == SqDist(p, p2)
    ensures (p1.x != p2.x || p1.y != p2.y) && Projection(p, p1, p2) <= 0.0 ==> r == SqDist(p, p1)
  {
    var dx := p2.x - p1.x;
    var dy := p2.y - p1.y;
    if dx != 0.0 || dy != 0.0 then
      var t := Projection(p, p1, p2);
      if t > 1.0 then SqDist(p, p2)
      else if t > 0.0 then Square(p.x - (p1.x + dx * t)) + Square(p.y - (p1.y + dy * t))
      else SqDist(p, p1)
    else SqDist(p, p1)
  }

  /** The nearest point of a segment is no farther than either of its ends. */
  lemma SegSqDistNearest(p: Point, p1: Point, p2: Point)
    ensures SegSqDist(p, p1, p2) <= SqDist(p, p1)
    ensures SegSqDist(p, p1, p2) <= SqDist(p, p2)
  {
    var dx := p2.x - p1.x;
    var dy := p2.y - p1.y;
    if dx != 0.0 || dy != 0.0 {
      SegEnds(p, p1, p2);
      SegMiddle(p, p1, p2);
      AlongNearest(p.x - p1.x, p.y - p1.y, dx, dy);
    } else {
      assert Square(p.x - p2.x) == Square(p.x - p1.x);
      assert Square(p.y - p2.y) == Square(p.y - p1.y);
    }
  }

  /** |v − t·d|², the squared length of v minus t times d. */
  function AlongSq(vx: real, vy: real, dx: real, dy: real, t: real): real
  {
    Square(vx - t * dx) + Square(vy - t * dy)
  }

  /** The two ends of a segment as the points at 0 and at 1 along it. */
  lemma SegEnds(p: Point, p1: Point, p2: Point)
    ensures SqDist(p, p1) == AlongSq(p.x - p1.x, p.y - p1.y, p2.x - p1.x, p2.y - p1.y, 0.0)
    ensures SqDist(p, p2) == AlongSq(p.x - p1.x, p.y - p1.y, p2.x - p1.x, p2.y - p1.y, 1.0)
  {
    var dx := p2.x - p1.x;
    var dy := p2.y - p1.y;
    assert p.x - p1.x - 0.0 * dx == p.x - p1.x;
    assert p.y - p1.y - 0.0 * dy == p.y - p1.y;
    assert p.x - p1.x - 1.0 * dx == p.x - p2.x;
    assert p.y - p1.y - 1.0 * dy == p.y - p2.y;
  }

  /** Between the ends, the distance to the segment is the distance to the point at the projection. */
  lemma SegMiddle(p: Point, p1: Point, p2: Point)
    requires p1.x != p2.x || p1.y != p2.y
    ensures var t := Projection(p, p1, p2);
      && t == Dot(p.x - p1.x, p.y - p1.y, p2.x - p1.x, p2.y - p1.y) / Length2(p2.x - p1.x, p2.y - p1.y)
      && (0.0 < t <= 1.0 ==> SegSqDist(p, p1, p2) == AlongSq(p.x - p1.x, p.y - p1.y, p2.x - p1.x, p2.y - p1.y, t))
  {
    var dx := p2.x - p1.x;
    var dy := p2.y - p1.y;
    var t := Projection(p, p1, p2);
    assert p.x - (p1.x + dx * t) == p.x - p1.x - t * dx;
    assert p.y - (p1.y + dy * t) == p.y - p1.y - t * dy;
  }

  /** The dot product of the vectors (vx, vy) and (dx, dy). */
  function Dot(vx: real, vy: real, dx: real, dy: real): real
  {
    vx * dx + vy * dy
  }

  /** The squared length of the vector (dx, dy). */
  function Length2(dx: real, dy: real): (r: real)
    ensures dx != 0.0 || dy != 0.0 ==> r > 0.0
  {
    assert Square(dx) + Square(dy) == dx * dx + dy * dy;
    dx * dx + dy * dy
  }

  /**
   * Along the line through 0 and d, the point at the projection of v is no
   * farther from v than the ends when it lies between them, and otherwise
   * the end on its side is the nearer one.
   */
  lemma AlongNearest(vx: real, vy: real, dx: real, dy: real)
    requires dx != 0.0 || dy != 0.0
    ensures var t := Dot(vx, vy, dx, dy) / Length2(dx, dy);
      && (t > 1.0 ==> AlongSq(vx, vy, dx, dy, 1.0) <= AlongSq(vx, vy, dx, dy, 0.0))
      && (0.0 < t <= 1.0 ==> AlongSq(vx, vy, dx, dy, t) <= AlongSq(vx, vy, dx, dy, 0.0))
      && (0.0 < t <= 1.0 ==> AlongSq(vx, vy, dx, dy, t) <= AlongSq(vx, vy, dx, dy, 1.0))
      && (t <= 0.0 ==> AlongSq(vx, vy, dx, dy, 0.0) <= AlongSq(vx, vy, dx, dy, 1.0))
  {
    var n := Length2(dx, dy);
    var dot := Dot(vx, vy, dx, dy);
    var t := dot / n;
    AlongExpand(vx, vy, dx, dy, t);
    AlongExpand(vx, vy, dx, dy, 1.0);
    AlongExpand(vx, vy, dx, dy, 0.0);
    AlongOrder(AlongSq(vx, vy, dx, dy, 0.0), dot, n, t, AlongSq(vx, vy, dx, dy, t), AlongSq(vx, vy, dx, dy, 1.0));
  }

  /** |v − t·d|² = |v|² − 2t(v·d) + t²|d|². */
  lemma AlongExpand(vx: real, vy: real, dx: real, dy: real, t: real)
    ensures AlongSq(vx, vy, dx, dy, t) ==
      AlongSq(vx, vy, dx, dy, 0.0) - 2.0 * Mul(t, Dot(vx, vy, dx, dy)) + Mul(Mul(t, t), Length2(dx, dy))
  {
    assert vx - 0.0 * dx == vx && vy - 0.0 * dy == vy;
  }

  /**
   * Along the line from p1 (at 0) to p2 (at 1), with a0, at and a1 the
   * squared distances at 0, at the projection t and at 1: beyond p2 the end
   * p2 is nearer than p1, between them the projection is nearest, before p1
   * the start p1 is nearer than p2.
   */
  lemma AlongOrder(a0: real, dot: real, n: real, t: real, at: real, a1: real)
    requires n > 0.0 && t == dot / n
    requires at == a0 - 2.0 * Mul(t, dot) + Mul(Mul(t, t), n)
    requires a1 == a0 - 2.0 * Mul(1.0, dot) + Mul(Mul(1.0, 1.0), n)
    ensures t > 1.0 ==> a1 <= a0
    ensures 0.0 < t <= 1.0 ==> at <= a0 && at <= a1
    ensures t <= 0.0 ==> a0 <= a1
  {
    assert dot == t * n;
    if t > 1.0 {
      MulGreater(t, n);
    } else if t > 0.0 {
      assert t * dot == t * t * n;
      PositiveProduct(t * t, n);
      assert a1 - at == n * ((1.0 - t) * (1.0 - t));
      PositiveProduct(n, (1.0 - t) * (1.0 - t));
    } else {
      NonPositiveProduct(t, n);
    }
  }

  lemma MulGreater(t: real, n: real)
    requires t > 1.0 && n > 0.0
    ensures t * n > n
  {
    assert (t - 1.0) * n > 0.0;
  }

  lemma PositiveProduct(a: real, b: real)
    requires a >= 0.0 && b >= 0.0
    ensures a * b >= 0.0
  {
  }

  lemma NonPositiveProduct(t: real, n: real)
    requires t <= 0.0 && n > 0.0
    ensures t * n <= 0.0
  {
    assert (-t) * n >= 0.0;
  }

  /** `a > b` between C# `double?` values: false when either is absent. */
  predicate Exceeds(a: Option<real>, b: Option<real>)
  {
    a.Some? && b.Some? && a.value > b.value
  }

  // ---------------------------------------------------------------------
  // Radial distance
  // ---------------------------------------------------------------------

  /** A selection of positions of a sequence of length n, in increasing order. */
  predicate Selection(idx: seq<nat>, n: nat)
  {
    Increasing(idx) && forall k :: 0 <= k < |idx| ==> idx[k] < n
  }

  /** Whether the radial pass keeps point i, given the last point it kept. */
  predicate RadialKeep(points: seq<Point>, sqTolerance: Option<real>, i: nat, prev: nat)
    requires i < |points| && prev < |points|
  {
    points[i].marked || Exceeds(Some(SqDist(points[i], points[prev])), sqTolerance)
  }

  /** A rule saying whether point i is kept, given the last point kept before it. */
  type KeepRule = (nat, nat) -> bool

  /** The radial pass's rule, on the positions of the input (nothing is kept off the input). */
  function RadialRule(points: seq<Point>, sqTolerance: Option<real>): KeepRule
  {
    (i: nat, prev: nat) => i < |points| && prev < |points| && RadialKeep(points, sqTolerance, i, prev)
  }

  /** The last point kept among the first n points. */
  function LastKept(keep: KeepRule, n: nat): (r: nat)
    requires 1 <= n
    ensures r < n
    decreases n
  {
    if n == 1 then 0
    else
      var prev := LastKept(keep, n - 1);
      if keep(n - 1, prev) then n - 1 else prev
  }

  /**
   * The positions kept among the first n points: the first point, then
   * every point the rule keeps given the last point kept before it.
   */
  function RadialKept(keep: KeepRule, n: nat): (r: seq<nat>)
    requires 1 <= n
    ensures |r| >= 1 && r[|r| - 1] == LastKept(keep, n)
    decreases n
  {
    if n == 1 then [0]
    else
      var kept := RadialKept(keep, n - 1);
      if keep(n - 1, LastKept(keep, n - 1)) then kept + [n - 1] else kept
  }

  /** The points kept among the first n points. */
  function RadialPoints(points: seq<Point>, keep: KeepRule, n: nat): seq<Point>
    requires 1 <= n <= |points|
    decreases n
  {
    if n == 1 then [points[0]]
    else
      var kept := RadialPoints(points, keep, n - 1);
      if keep(n - 1, LastKept(keep, n - 1)) then kept + [points[n - 1]] else kept
  }

  /** What is kept starts at the first point and only goes up. */
  lemma {:induction false} RadialKeptSelection(keep: KeepRule, n: nat)
    requires 1 <= n
    ensures var r := RadialKept(keep, n); r[0] == 0 && Selection(r, n)
    decreases n
  {
    if n > 1 {
      RadialKeptSelection(keep, n - 1);
      var c := RadialKept(keep, n - 1);
      var r := RadialKept(keep, n);
      if r != c {
        IncreasingJoin(c, n - 1, []);
        assert r == c + [n - 1] + [];
      }
    }
  }

  /** The points kept are the points at the positions kept. */
  lemma {:induction false} RadialPointsPicked(points: seq<Point>, keep: KeepRule, n: nat)
    requires 1 <= n <= |points|
    ensures RadialKept(keep, n)[0] == 0 && Selection(RadialKept(keep, n), n)
    ensures RadialPoints(points, keep, n) == Pick(points, RadialKept(keep, n))
    decreases n
  {
    RadialKeptSelection(keep, n);
    if n > 1 {
      RadialPointsPicked(points, keep, n - 1);
      if keep(n - 1, LastKept(keep, n - 1)) {
        PickSnoc(points, RadialKept(keep, n - 1), n - 1);
      }
    }
  }

  /** The positions the radial pass returns out of count points: those kept, and the last point when it was not kept. */
  function RadialIndices(keep: KeepRule, count: nat): (r: seq<nat>)
    requires count >= 2
    ensures |r| >= 2 && r[|r| - 1] == count - 1 && forall k :: 0 <= k < |r| ==> r[k] < count
  {
    var kept := RadialKept(keep, count);
    RadialKeptSelection(keep, count);
    if LastKept(keep, count) != count - 1 then kept + [count - 1] else kept
  }

  /** The points the radial pass returns. */
  function RadialResult(points: seq<Point>, keep: KeepRule): seq<Point>
    requires |points| >= 2
  {
    var n := |points|;
    RadialPoints(points, keep, n) + (if LastKept(keep, n) != n - 1 then [points[n - 1]] else [])
  }

  /**
   * The radial pass returns the points at its positions, a selection of its
   * input that starts at the first point.
   */
  lemma RadialResultPicked(points: seq<Point>, keep: KeepRule)
    requires |points| >= 2
    ensures var r := RadialIndices(keep, |points|); r[0] == 0 && Selection(r, |points|)
    ensures RadialResult(points, keep) == Pick(points, RadialIndices(keep, |points|))
  {
    var n := |points|;
    var kept := RadialKept(keep, n);
    RadialPointsPicked(points, keep, n);
    if LastKept(keep, n) != n - 1 {
      IncreasingJoin(kept, n - 1, []);
      assert kept + [n - 1] + [] == RadialIndices(keep, n);
      PickSnoc(points, kept, n - 1);
    }
  }

  /** Later points never change what was kept among the earlier ones. */
  lemma {:induction false} RadialPrefix(keep: KeepRule, m: nat, n: nat)
    requires 1 <= m <= n
    ensures var a := RadialKept(keep, m);
      var b := RadialKept(keep, n);
      |a| <= |b| && b[..|a|] == a && forall k :: |a| <= k < |b| ==> b[k] >= m
    decreases n - m
  {
    if m < n {
      RadialPrefix(keep, m, n - 1);
      var a := RadialKept(keep, m);
      var c := RadialKept(keep, n - 1);
      var b := RadialKept(keep, n);
      if b != c {
        assert b == c + [n - 1];
        assert b[..|a|] == c[..|a|];
        forall k | |a| <= k < |b|
          ensures b[k] >= m
        {
          if k < |c| {
            assert b[k] == c[k];
          }
        }
      }
    }
  }

  /**
   * A point strictly inside the input is kept by the radial pass exactly
   * when it is marked or farther than the tolerance from the last point
   * kept before it.
   */
  lemma RadialKeeps(points: seq<Point>, sqTolerance: Option<real>, j: nat)
    requires 1 <= j < |points| - 1
    ensures var keep := RadialRule(points, sqTolerance);
      j in RadialIndices(keep, |points|) <==>
        points[j].marked || Exceeds(Some(SqDist(points[j], points[LastKept(keep, j)])), sqTolerance)
  {
    var keep := RadialRule(points, sqTolerance);
    if keep(j, LastKept(keep, j)) {
      KeptInside(keep, |points|, j);
    } else {
      KeptDropped(keep, |points|, j);
    }
  }

  /** A point strictly inside that the rule keeps is among the positions returned. */
  lemma KeptInside(keep: KeepRule, count: nat, j: nat)
    requires 1 <= j < count - 1 && keep(j, LastKept(keep, j))
    ensures j in RadialIndices(keep, count)
  {
    var a := RadialKept(keep, j + 1);
    RadialPrefix(keep, j + 1, count);
    assert a[|a| - 1] == j;
    assert RadialKept(keep, count)[|a| - 1] == j;
    assert RadialIndices(keep, count)[|a| - 1] == j;
  }

  /** A point strictly inside that the rule drops is not among the positions returned. */
  lemma KeptDropped(keep: KeepRule, count: nat, j: nat)
    requires 1 <= j < count - 1 && !keep(j, LastKept(keep, j))
    ensures j !in RadialIndices(keep, count)
  {
    var b := RadialKept(keep, count);
    NotKept(keep, count, j);
    var ri := RadialIndices(keep, count);
    assert ri == b || ri == b + [count - 1];
  }

  /** A point the rule drops is never kept later. */
  lemma NotKept(keep: KeepRule, count: nat, j: nat)
    requires 1 <= j < count && !keep(j, LastKept(keep, j))
    ensures j !in RadialKept(keep, count)
  {
    var b := RadialKept(keep, count);
    var a := RadialKept(keep, j + 1);
    RadialPrefix(keep, j + 1, count);
    assert a == RadialKept(keep, j);
    RadialKeptSelection(keep, j);
    forall k | 0 <= k < |b|
      ensures b[k] != j
    {
      if k < |a| {
        assert b[k] == a[k];
      }
    }
  }

  /** Every marked point survives the radial pass. */
  lemma RadialKeepsMarked(points: seq<Point>, sqTolerance: Option<real>, j: nat)
    requires j < |points| && |points| >= 2 && points[j].marked
    ensures j in RadialIndices(RadialRule(points, sqTolerance), |points|)
  {
    var keep := RadialRule(points, sqTolerance);
    var r := RadialIndices(keep, |points|);
    RadialResultPicked(points, keep);
    if j == 0 {
      assert r[0] == j;
    } else if j == |points| - 1 {
      assert r[|r| - 1] == j;
    } else {
      RadialKeeps(points, sqTolerance, j);
    }
  }

  /** Picking one more position picks one more element. */
  lemma PickSnoc<T>(items: seq<T>, idx: seq<nat>, i: nat)
    requires (forall k :: 0 <= k < |idx| ==> idx[k] < |items|) && i < |items|
    ensures Pick(items, idx + [i]) == Pick(items, idx) + [items[i]]
  {
  }

  /**
   * `SimplifyRadialDist`: walks the points once, keeping a point when it is
   * marked or farther than the tolerance from the previous kept point, and
   * adds the last point when it was not kept.
   */
  method SimplifyRadialDist(points: seq<Point>, sqTolerance: Option<real>) returns (r: seq<Point>)
    requires |points| >= 2
    ensures r == RadialResult(points, RadialRule(points, sqTolerance))
    ensures r == Pick(points, RadialIndices(RadialRule(points, sqTolerance), |points|))
  {
    ghost var keep := RadialRule(points, sqTolerance);
    var prev := 0;
    r := [points[0]];
    var i := 1;
    while i < |points|
      invariant 1 <= i <= |points|
      invariant prev == LastKept(keep, i)
      invariant r == RadialPoints(points, keep, i)
    {
      assert keep(i, prev) == (points[i].marked || Exceeds(Some(SqDist(points[i], points[prev])), sqTolerance));
      if points[i].marked || Exceeds(Some(SqDist(points[i], points[prev])), sqTolerance) {
        r := r + [points[i]];
        prev := i;
      }
      i := i + 1;
    }
    if prev != |points| - 1 {
      r := r + [points[|points| - 1]];
    }
    RadialResultPicked(points, keep);
  }

  // ---------------------------------------------------------------------
  // Ramer–Douglas–Peucker
  // ---------------------------------------------------------------------

  /**
   * A measure of how far a point lies from a segment: the value at (i, f, l)
   * is the distance of point i from the segment between points f and l.
   */
  type Measure = (nat, nat, nat) -> real

  /** The squared distances of the input's points from the segments between them (zero off the input). */
  function SegmentDists(points: seq<Point>): Measure
  {
    (i: nat, f: nat, l: nat) =>
      if i < |points| && f < |points| && l < |points| then SegSqDist(points[i], points[f], points[l]) else 0.0
  }

  /** The scan's best so far: nothing beyond the tolerance yet, or a point inside the segment beyond it. */
  predicate ScanBest(first: nat, last: nat, index: int, maxSqDist: Option<real>, sqTolerance: Option<real>)
  {
    (index == -1 && maxSqDist == sqTolerance) || (first < index < last && Exceeds(maxSqDist, sqTolerance))
  }

  /**
   * The scan of SimplifyDPStep from position i on, with the best index and
   * distance so far: a point replaces the best one when it is strictly
   * farther (than the tolerance, while there is no best point yet).
   */
  function FarthestFrom(dist: Measure, first: nat, last: nat, i: nat, index: int, maxSqDist: Option<real>,
                        ghost sqTolerance: Option<real>): (r: (int, Option<real>))
    requires first <= last && first < i
    requires ScanBest(first, last, index, maxSqDist, sqTolerance)
    ensures ScanBest(first, last, r.0, r.1, sqTolerance)
    decreases last - i
  {
    if i >= last then (index, maxSqDist)
    else
      var d := dist(i, first, last);
      if Exceeds(Some(d), maxSqDist) then FarthestFrom(dist, first, last, i + 1, i, Some(d), sqTolerance)
      else FarthestFrom(dist, first, last, i + 1, index, maxSqDist, sqTolerance)
  }

  /** The farthest point between first and last and its distance, as SimplifyDPStep's loop finds them. */
  function Farthest(dist: Measure, first: nat, last: nat, sqTolerance: Option<real>): (r: (int, Option<real>))
    requires first <= last
    ensures ScanBest(first, last, r.0, r.1, sqTolerance)
  {
    FarthestFrom(dist, first, last, first + 1, -1, sqTolerance, sqTolerance)
  }

  /** The scan's state before position i, with what it has seen so far. */
  ghost predicate Scanned(dist: Measure, first: nat, last: nat, i: nat, index: int, maxSqDist: Option<real>, sqTolerance: Option<real>)
    requires first <= last && first < i <= last + 1
  {
    (index == -1 && maxSqDist == sqTolerance &&
      forall j :: first < j < i && j < last ==> !Exceeds(Some(dist(j, first, last)), sqTolerance)) ||
    (first < index < i && index < last && maxSqDist == Some(dist(index, first, last)) &&
      Exceeds(maxSqDist, sqTolerance) &&
      (forall j :: first < j < i && j < last ==> dist(j, first, last) <= maxSqDist.value) &&
      (forall j :: first < j < index ==> dist(j, first, last) < maxSqDist.value))
  }

  /** The scan ends in a state that holds for the whole segment. */
  lemma {:induction false} FarthestFromScanned(dist: Measure, first: nat, last: nat, i: nat, index: int,
                                               maxSqDist: Option<real>, sqTolerance: Option<real>)
    requires first <= last && first < i <= last + 1
    requires Scanned(dist, first, last, i, index, maxSqDist, sqTolerance)
    requires ScanBest(first, last, index, maxSqDist, sqTolerance)
    ensures var r := FarthestFrom(dist, first, last, i, index, maxSqDist, sqTolerance);
      Scanned(dist, first, last, if i <= last then last else i, r.0, r.1, sqTolerance)
    decreases last - i
  {
    if i < last {
      var d := dist(i, first, last);
      if Exceeds(Some(d), maxSqDist) {
        FarthestFromScanned(dist, first, last, i + 1, i, Some(d), sqTolerance);
      } else {
        FarthestFromScanned(dist, first, last, i + 1, index, maxSqDist, sqTolerance);
      }
    }
  }

  /**
   * The scan finds nothing when no point between first and last lies beyond
   * the tolerance; otherwise it finds the first of the points farthest from
   * the segment, and that point lies beyond the tolerance.
   */
  lemma FarthestIsFarthest(dist: Measure, first: nat, last: nat, sqTolerance: Option<real>)
    requires first <= last
    ensures var r := Farthest(dist, first, last, sqTolerance);
      (r.0 == -1 ==> forall j :: first < j < last ==> !Exceeds(Some(dist(j, first, last)), sqTolerance)) &&
      (r.0 != -1 ==> (first < r.0 < last && r.1 == Some(dist(r.0, first, last)) &&
        Exceeds(r.1, sqTolerance) &&
        (forall j :: first < j < last ==> dist(j, first, last) <= r.1.value) &&
        (forall j :: first < j < r.0 ==> dist(j, first, last) < r.1.value)))
  {
    FarthestFromScanned(dist, first, last, first + 1, -1, sqTolerance, sqTolerance);
  }

  /**
   * The positions SimplifyDPStep pushes for the segment first–last: when
   * the farthest point lies beyond the tolerance, those of the part before
   * it, then it, then those of the part after it; nothing otherwise.
   */
  function DPIndices(dist: Measure, first: nat, last: nat, sqTolerance: Option<real>): seq<nat>
    requires first <= last
    decreases last - first
  {
    var (index, maxSqDist) := Farthest(dist, first, last, sqTolerance);
    if Exceeds(maxSqDist, sqTolerance) then
      (if index - first > 1 then DPIndices(dist, first, index, sqTolerance) else []) +
      [index] +
      (if last - index > 1 then DPIndices(dist, index, last, sqTolerance) else [])
    else []
  }

  /** The points SimplifyDPStep pushes for the segment first–last. */
  function DPPoints(points: seq<Point>, dist: Measure, first: nat, last: nat, sqTolerance: Option<real>): seq<Point>
    requires first <= last < |points|
    decreases last - first
  {
    var (index, maxSqDist) := Farthest(dist, first, last, sqTolerance);
    if Exceeds(maxSqDist, sqTolerance) then
      (if index - first > 1 then DPPoints(points, dist, first, index, sqTolerance) else []) +
      [points[index]] +
      (if last - index > 1 then DPPoints(points, dist, index, last, sqTolerance) else [])
    else []
  }

  /** Increasing positions below x, then x, then increasing positions above it, are increasing. */
  lemma IncreasingJoin(a: seq<nat>, x: nat, b: seq<nat>)
    requires Increasing(a) && Increasing(b)
    requires forall k :: 0 <= k < |a| ==> a[k] < x
    requires forall k :: 0 <= k < |b| ==> x < b[k]
    ensures Increasing(a + [x] + b)
  {
    var s := a + [x] + b;
    forall i, j | 0 <= i < j < |s|
      ensures s[i] < s[j]
    {
      if j < |a| {
      } else if j == |a| {
        assert s[i] == a[i];
      } else if i < |a| {
        assert s[i] == a[i] && s[j] == b[j - |a| - 1];
      } else if i == |a| {
        assert s[j] == b[j - |a| - 1];
      } else {
        assert s[i] == b[i - |a| - 1] && s[j] == b[j - |a| - 1];
      }
    }
  }

  /** Picking from two lists of positions and a position between them. */
  lemma PickJoin<T>(items: seq<T>, a: seq<nat>, x: nat, b: seq<nat>)
    requires (forall k :: 0 <= k < |a| ==> a[k] < |items|) && x < |items|
    requires forall k :: 0 <= k < |b| ==> b[k] < |items|
    ensures Pick(items, a + [x] + b) == Pick(items, a) + [items[x]] + Pick(items, b)
  {
  }

  /** The positions SimplifyDPStep pushes lie strictly inside the segment, in increasing order. */
  lemma {:induction false} DPIndicesInside(dist: Measure, first: nat, last: nat, sqTolerance: Option<real>)
    requires first <= last
    ensures var r := DPIndices(dist, first, last, sqTolerance);
      Increasing(r) && forall k :: 0 <= k < |r| ==> first < r[k] < last
    decreases last - first
  {
    var (index, maxSqDist) := Farthest(dist, first, last, sqTolerance);
    if Exceeds(maxSqDist, sqTolerance) {
      var before := if index - first > 1 then DPIndices(dist, first, index, sqTolerance) else [];
      var after := if last - index > 1 then DPIndices(dist, index, last, sqTolerance) else [];
      if index - first > 1 {
        DPIndicesInside(dist, first, index, sqTolerance);
      }
      if last - index > 1 {
        DPIndicesInside(dist, index, last, sqTolerance);
      }
      IncreasingJoin(before, index, after);
      assert DPIndices(dist, first, last, sqTolerance) == before + [index] + after;
    }
  }

  /** The points SimplifyDPStep pushes are the points at the positions it pushes. */
  lemma {:induction false} DPPointsPicked(points: seq<Point>, dist: Measure, first: nat, last: nat, sqTolerance: Option<real>)
    requires first <= last < |points|
    ensures var r := DPIndices(dist, first, last, sqTolerance);
      (forall k :: 0 <= k < |r| ==> r[k] < |points|) && DPPoints(points, dist, first, last, sqTolerance) == Pick(points, r)
    decreases last - first
  {
    DPIndicesInside(dist, first, last, sqTolerance);
    var (index, maxSqDist) := Farthest(dist, first, last, sqTolerance);
    if Exceeds(maxSqDist, sqTolerance) {
      var before := if index - first > 1 then DPIndices(dist, first, index, sqTolerance) else [];
      var after := if last - index > 1 then DPIndices(dist, index, last, sqTolerance) else [];
      if index - first > 1 {
        DPPointsPicked(points, dist, first, index, sqTolerance);
      }
      if last - index > 1 {
        DPPointsPicked(points, dist, index, last, sqTolerance);
      }
      PickJoin(points, before, index, after);
    }
  }

  /**
   * An interior point is kept only as the farthest point of a segment,
   * beyond the tolerance: when no point of the segment lies beyond it,
   * nothing between the ends is kept, and otherwise the farthest point is.
   */
  lemma DPKeepsFarthest(dist: Measure, first: nat, last: nat, sqTolerance: Option<real>)
    requires first <= last
    ensures (forall j :: first < j < last ==> !Exceeds(Some(dist(j, first, last)), sqTolerance)) ==>
      DPIndices(dist, first, last, sqTolerance) == []
    ensures var r := Farthest(dist, first, last, sqTolerance);
      r.0 != -1 ==> r.0 in DPIndices(dist, first, last, sqTolerance)
  {
    var (index, maxSqDist) := Farthest(dist, first, last, sqTolerance);
    FarthestIsFarthest(dist, first, last, sqTolerance);
    if index != -1 {
      var before := if index - first > 1 then DPIndices(dist, first, index, sqTolerance) else [];
      assert DPIndices(dist, first, last, sqTolerance)[|before|] == index;
    }
  }

  /**
   * `SimplifyDPStep`: finds the farthest point of the segment first–last
   * and, when it is beyond the tolerance, recurses on the part before it,
   * pushes it, and recurses on the part after it.
   */
  method SimplifyDPStep(points: seq<Point>, first: nat, last: nat, sqTolerance: Option<real>, simplified: seq<Point>)
    returns (out: seq<Point>)
    requires first <= last < |points|
    ensures out == simplified + DPPoints(points, SegmentDists(points), first, last, sqTolerance)
    decreases last - first
  {
    ghost var dist := SegmentDists(points);
    var maxSqDist := sqTolerance;
    var index := -1;
    var i := first + 1;
    while i < last
      invariant first < i && (i > last ==> i == first + 1)
      invariant ScanBest(first, last, index, maxSqDist, sqTolerance)
      invariant FarthestFrom(dist, first, last, i, index, maxSqDist, sqTolerance) == Farthest(dist, first, last, sqTolerance)
    {
      var sqDist := SegSqDist(points[i], points[first], points[last]);
      assert sqDist == dist(i, first, last);
      if Exceeds(Some(sqDist), maxSqDist) {
        index := i;
        maxSqDist := Some(sqDist);
      }
      i := i + 1;
    }
    assert (index, maxSqDist) == Farthest(dist, first, last, sqTolerance);
    out := simplified;
    if Exceeds(maxSqDist, sqTolerance) {
      ghost var before := if index - first > 1 then DPPoints(points, dist, first, index, sqTolerance) else [];
      ghost var after := if last - index > 1 then DPPoints(points, dist, index, last, sqTolerance) else [];
      assert DPPoints(points, dist, first, last, sqTolerance) == before + [points[index]] + after;
      if index - first > 1 {
        out := SimplifyDPStep(points, first, index, sqTolerance, out);
      }
      assert out == simplified + before;
      out := out + [points[index]];
      if last - index > 1 {
        out := SimplifyDPStep(points, index, last, sqTolerance, out);
      }
      assert out == simplified + before + [points[index]] + after;
      ConcatAssociative(simplified, before, [points[index]], after);
    } else {
      assert DPPoints(points, dist, first, last, sqTolerance) == [];
    }
  }

  lemma ConcatAssociative<T>(a: seq<T>, b: seq<T>, c: seq<T>, d: seq<T>)
    ensures a + b + c + d == a + (b + c + d)
  {
  }

  /** The points SimplifyDouglasPeucker returns: the first, those SimplifyDPStep pushes, and the last. */
  function DouglasPeuckerResult(points: seq<Point>, dist: Measure, sqTolerance: Option<real>): seq<Point>
    requires |points| > 0
  {
    [points[0]] + DPPoints(points, dist, 0, |points| - 1, sqTolerance) + [points[|points| - 1]]
  }

  /** The positions of the points SimplifyDouglasPeucker returns. */
  function DouglasPeuckerIndices(points: seq<Point>, dist: Measure, sqTolerance: Option<real>): seq<nat>
    requires |points| > 0
  {
    [0] + DPIndices(dist, 0, |points| - 1, sqTolerance) + [|points| - 1]
  }

  /**
   * `SimplifyDouglasPeucker`: the first point, the points the recursive
   * step keeps between the first and the last, and the last point. There
   * is no first point in an empty input.
   */
  method SimplifyDouglasPeucker(points: seq<Point>, sqTolerance: Option<real>) returns (r: Result<seq<Point>>)
    ensures |points| == 0 <==> r == Failure(IndexOutOfRange)
    ensures |points| > 0 ==> r == Result.Success(DouglasPeuckerResult(points, SegmentDists(points), sqTolerance))
  {
    if |points| == 0 {
      return Failure(IndexOutOfRange);
    }
    var last := |points| - 1;
    var simplified := [points[0]];
    simplified := SimplifyDPStep(points, 0, last, sqTolerance, simplified);
    simplified := simplified + [points[last]];
    return Result.Success(simplified);
  }

  /**
   * For two or more points the Douglas–Peucker positions start at the
   * first point, end at the last and only go up, so there are no more of
   * them than input points.
   */
  lemma DouglasPeuckerSelection(points: seq<Point>, dist: Measure, sqTolerance: Option<real>)
    requires |points| >= 2
    ensures var r := DouglasPeuckerIndices(points, dist, sqTolerance);
      r[0] == 0 && r[|r| - 1] == |points| - 1 && Selection(r, |points|) && |r| <= |points|
  {
    var n := |points|;
    DPIndicesInside(dist, 0, n - 1, sqTolerance);
    FramedSelection(DPIndices(dist, 0, n - 1, sqTolerance), n);
  }

  /** The Douglas–Peucker pass returns the points at its positions. */
  lemma DouglasPeuckerPicked(points: seq<Point>, dist: Measure, sqTolerance: Option<real>)
    requires |points| >= 2
    ensures var r := DouglasPeuckerIndices(points, dist, sqTolerance);
      (forall k :: 0 <= k < |r| ==> r[k] < |points|) && DouglasPeuckerResult(points, dist, sqTolerance) == Pick(points, r)
  {
    var n := |points|;
    DPPointsPicked(points, dist, 0, n - 1, sqTolerance);
    FramedPick(points, DPIndices(dist, 0, n - 1, sqTolerance));
  }

  /** Positions strictly between the two ends, framed by both ends, select from n points. */
  lemma FramedSelection(mid: seq<nat>, n: nat)
    requires n >= 2 && Increasing(mid)
    requires forall k :: 0 <= k < |mid| ==> 0 < mid[k] < n - 1
    ensures var r := [0] + mid + [n - 1];
      r[0] == 0 && r[|r| - 1] == n - 1 && Selection(r, n) && |r| <= n
  {
    IncreasingJoin([], 0, mid + [n - 1]) by {
      IncreasingJoin(mid, n - 1, []);
      assert mid + [n - 1] + [] == mid + [n - 1];
    }
    assert [] + [0] + (mid + [n - 1]) == [0] + mid + [n - 1];
    IncreasingShort([0] + mid + [n - 1], n);
  }

  /** Picking the framed positions frames the picked points with both ends. */
  lemma FramedPick<T>(items: seq<T>, mid: seq<nat>)
    requires |items| >= 2
    requires forall k :: 0 <= k < |mid| ==> mid[k] < |items|
    ensures [items[0]] + Pick(items, mid) + [items[|items| - 1]] == Pick(items, [0] + mid + [|items| - 1])
  {
    var n := |items|;
    PickJoin(items, [], 0, mid);
    assert [] + [0] + mid == [0] + mid;
    PickJoin(items, [0] + mid, n - 1, []);
    assert [0] + mid + [n - 1] + [] == [0] + mid + [n - 1];
  }

  /** Increasing positions below n number at most n. */
  lemma {:induction false} IncreasingShort(idx: seq<nat>, n: nat)
    requires Selection(idx, n)
    ensures |idx| <= n
    decreases n
  {
    if |idx| > 0 {
      var init := idx[..|idx| - 1];
      forall k | 0 <= k < |init|
        ensures init[k] < idx[|idx| - 1]
      {
      }
      IncreasingShort(init, idx[|idx| - 1]);
    }
  }

  // ---------------------------------------------------------------------
  // Both passes
  // ---------------------------------------------------------------------

  /** Selecting from a selection is selecting from the original. */
  lemma PickPick<T>(s: seq<T>, a: seq<nat>, b: seq<nat>)
    requires Selection(a, |s|) && Selection(b, |a|)
    ensures Selection(Pick(a, b), |s|) && Pick(Pick(s, a), b) == Pick(s, Pick(a, b))
  {
  }

  /** The squared tolerance of SimplifyPolygon: the tolerance squared, or 1 without one. */
  function SqToleranceOf(tolerance: Option<real>): (r: Option<real>)
    ensures r.Some? && (tolerance.Some? ==> r.value == tolerance.value * tolerance.value)
    ensures tolerance.None? ==> r == Some(1.0)
  {
    if tolerance.Some? then Some(tolerance.value * tolerance.value) else Some(1.0)
  }

  /** What SimplifyPolygon returns: each pass, when asked for, on inputs of more than two points. */
  function SimplifiedPolygon(points: seq<Point>, tolerance: Option<real>, doSimplifyRadialDist: bool,
                             doSimplifyDouglasPeucker: bool): seq<Point>
  {
    if |points| <= 2 then points
    else
      var sqTolerance := SqToleranceOf(tolerance);
      DouglasPeuckerStage(RadialStage(points, sqTolerance, doSimplifyRadialDist), sqTolerance, doSimplifyDouglasPeucker)
  }

  /** The radial pass when asked for, otherwise the points unchanged. */
  function RadialStage(points: seq<Point>, sqTolerance: Option<real>, doSimplifyRadialDist: bool): seq<Point>
  {
    if doSimplifyRadialDist && |points| >= 2 then RadialResult(points, RadialRule(points, sqTolerance)) else points
  }

  /** The Douglas–Peucker pass when asked for, otherwise the points unchanged. */
  function DouglasPeuckerStage(points: seq<Point>, sqTolerance: Option<real>, doSimplifyDouglasPeucker: bool): seq<Point>
  {
    if doSimplifyDouglasPeucker && |points| > 0 then DouglasPeuckerResult(points, SegmentDists(points), sqTolerance) else points
  }

  /** Increasing positions below n that start at the first position and end at the last. */
  predicate EndsSelection(idx: seq<nat>, n: nat)
  {
    |idx| >= 2 && idx[0] == 0 && idx[|idx| - 1] == n - 1 && Selection(idx, n)
  }

  /** r is made of some of the points, in their order, starting with the first point and ending with the last. */
  ghost predicate SelectsEnds(points: seq<Point>, r: seq<Point>)
  {
    exists idx: seq<nat> :: EndsSelection(idx, |points|) && r == Pick(points, idx)
  }

  /** Every polygon selects all of itself. */
  lemma IdentitySelects(points: seq<Point>)
    ensures exists idx: seq<nat> :: Selection(idx, |points|) && points == Pick(points, idx)
  {
    var idx := seq(|points|, k requires 0 <= k < |points| => k);
    assert Pick(points, idx) == points;
    assert Selection(idx, |points|);
  }

  /** Every polygon of two or more points selects its own ends. */
  lemma SelectsEndsIdentity(points: seq<Point>)
    requires |points| >= 2
    ensures SelectsEnds(points, points)
  {
    var idx := seq(|points|, k requires 0 <= k < |points| => k);
    assert Pick(points, idx) == points;
    assert EndsSelection(idx, |points|);
  }

  /** A selection with both ends has at least two points. */
  lemma SelectsEndsLength(points: seq<Point>, r: seq<Point>)
    requires SelectsEnds(points, r)
    ensures |r| >= 2
  {
  }

  /** A selection with both ends is a selection. */
  lemma SelectsEndsPicked(points: seq<Point>, r: seq<Point>)
    requires SelectsEnds(points, r)
    ensures exists idx: seq<nat> :: Selection(idx, |points|) && r == Pick(points, idx)
  {
  }

  /** A selection with both ends has at least two points, no more than its source, and the source's two ends. */
  lemma SelectsEndsBounds(points: seq<Point>, r: seq<Point>)
    requires SelectsEnds(points, r)
    ensures |r| >= 2 && |r| <= |points| && r[0] == points[0] && r[|r| - 1] == points[|points| - 1]
  {
    var idx: seq<nat> :| EndsSelection(idx, |points|) && r == Pick(points, idx);
    IncreasingShort(idx, |points|);
  }

  /** Positions with both ends, taken from positions with both ends, keep both ends. */
  lemma EndsSelectionCompose(a: seq<nat>, b: seq<nat>, n: nat)
    requires EndsSelection(a, n) && EndsSelection(b, |a|)
    ensures EndsSelection(Pick(a, b), n)
  {
    var c := Pick(a, b);
    assert c[0] == a[b[0]] == a[0];
    assert c[|c| - 1] == a[b[|b| - 1]] == a[|a| - 1];
    assert Selection(c, n) by {
      forall i, j | 0 <= i < j < |c|
        ensures c[i] < c[j]
      {
        assert b[i] < b[j];
      }
    }
  }

  /** A selection with both ends of a selection with both ends is one of the original. */
  lemma SelectsEndsCompose(p: seq<Point>, q: seq<Point>, r: seq<Point>)
    requires SelectsEnds(p, q) && SelectsEnds(q, r)
    ensures SelectsEnds(p, r)
  {
    var a: seq<nat> :| EndsSelection(a, |p|) && q == Pick(p, a);
    var b: seq<nat> :| EndsSelection(b, |q|) && r == Pick(q, b);
    PickPick(p, a, b);
    EndsSelectionCompose(a, b, |p|);
  }

  /** The radial pass selects from its input and keeps both ends. */
  lemma RadialSelectsEnds(points: seq<Point>, sqTolerance: Option<real>)
    requires |points| >= 2
    ensures SelectsEnds(points, RadialResult(points, RadialRule(points, sqTolerance)))
  {
    RadialResultPicked(points, RadialRule(points, sqTolerance));
    assert EndsSelection(RadialIndices(RadialRule(points, sqTolerance), |points|), |points|);
  }

  /** The Douglas–Peucker pass selects from its input and keeps both ends. */
  lemma DouglasPeuckerSelectsEnds(points: seq<Point>, dist: Measure, sqTolerance: Option<real>)
    requires |points| >= 2
    ensures SelectsEnds(points, DouglasPeuckerResult(points, dist, sqTolerance))
  {
    DouglasPeuckerSelection(points, dist, sqTolerance);
    DouglasPeuckerPicked(points, dist, sqTolerance);
    assert EndsSelection(DouglasPeuckerIndices(points, dist, sqTolerance), |points|);
  }

  /** The radial stage selects from its input and keeps both ends. */
  lemma RadialStageSelectsEnds(points: seq<Point>, sqTolerance: Option<real>, doSimplifyRadialDist: bool)
    requires |points| >= 2
    ensures SelectsEnds(points, RadialStage(points, sqTolerance, doSimplifyRadialDist))
  {
    if doSimplifyRadialDist {
      RadialSelectsEnds(points, sqTolerance);
    } else {
      SelectsEndsIdentity(points);
    }
  }

  /** The Douglas–Peucker stage selects from its input and keeps both ends. */
  lemma DouglasPeuckerStageSelectsEnds(points: seq<Point>, sqTolerance: Option<real>, doSimplifyDouglasPeucker: bool)
    requires |points| >= 2
    ensures SelectsEnds(points, DouglasPeuckerStage(points, sqTolerance, doSimplifyDouglasPeucker))
  {
    if doSimplifyDouglasPeucker {
      DouglasPeuckerSelectsEnds(points, SegmentDists(points), sqTolerance);
    } else {
      SelectsEndsIdentity(points);
    }
  }

  /** Both passes together select from their input, in order, and keep its two ends. */
  lemma SimplifiedPolygonSelects(points: seq<Point>, tolerance: Option<real>, doSimplifyRadialDist: bool,
                                 doSimplifyDouglasPeucker: bool)
    ensures var r := SimplifiedPolygon(points, tolerance, doSimplifyRadialDist, doSimplifyDouglasPeucker);
      exists idx: seq<nat> :: Selection(idx, |points|) && r == Pick(points, idx)
  {
    var r := SimplifiedPolygon(points, tolerance, doSimplifyRadialDist, doSimplifyDouglasPeucker);
    if |points| <= 2 {
      assert r == points;
      IdentitySelects(points);
    } else {
      LongPolygonSelectsEnds(points, tolerance, doSimplifyRadialDist, doSimplifyDouglasPeucker);
      SelectsEndsPicked(points, r);
    }
  }

  /** On more than two points the result keeps the two ends, has at least two points and no more than the input. */
  lemma SimplifiedPolygonKeepsEnds(points: seq<Point>, tolerance: Option<real>, doSimplifyRadialDist: bool,
                                   doSimplifyDouglasPeucker: bool)
    requires |points| > 2
    ensures var r := SimplifiedPolygon(points, tolerance, doSimplifyRadialDist, doSimplifyDouglasPeucker);
      |r| >= 2 && |r| <= |points| && r[0] == points[0] && r[|r| - 1] == points[|points| - 1]
  {
    LongPolygonSelectsEnds(points, tolerance, doSimplifyRadialDist, doSimplifyDouglasPeucker);
    SelectsEndsBounds(points, SimplifiedPolygon(points, tolerance, doSimplifyRadialDist, doSimplifyDouglasPeucker));
  }

  /** On more than two points both passes together select from their input and keep both ends. */
  lemma LongPolygonSelectsEnds(points: seq<Point>, tolerance: Option<real>, doSimplifyRadialDist: bool,
                               doSimplifyDouglasPeucker: bool)
    requires |points| > 2
    ensures SelectsEnds(points, SimplifiedPolygon(points, tolerance, doSimplifyRadialDist, doSimplifyDouglasPeucker))
  {
    var sqTolerance := SqToleranceOf(tolerance);
    var radial := RadialStage(points, sqTolerance, doSimplifyRadialDist);
    var r := DouglasPeuckerStage(radial, sqTolerance, doSimplifyDouglasPeucker);
    assert SimplifiedPolygon(points, tolerance, doSimplifyRadialDist, doSimplifyDouglasPeucker) == r;
    RadialStageSelectsEnds(points, sqTolerance, doSimplifyRadialDist);
    SelectsEndsLength(points, radial);
    DouglasPeuckerStageSelectsEnds(radial, sqTolerance, doSimplifyDouglasPeucker);
    SelectsEndsCompose(points, radial, r);
  }

  /**
   * `SimplifyPolygon`: up to two points are copied unchanged; longer inputs
   * go through the radial pass and then the Douglas–Peucker pass, each when
   * asked for.
   */
  method SimplifyPolygon(points: seq<Point>, tolerance: Option<real>, doSimplifyRadialDist: bool, doSimplifyDouglasPeucker: bool)
    returns (r: seq<Point>)
    ensures r == SimplifiedPolygon(points, tolerance, doSimplifyRadialDist, doSimplifyDouglasPeucker)
  {
    var resultSource := points;
    if |resultSource| > 2 {
      var sqTolerance := SqToleranceOf(tolerance);
      if doSimplifyRadialDist {
        resultSource := SimplifyRadialDist(resultSource, sqTolerance);
      }
      if doSimplifyDouglasPeucker {
        var simplified := SimplifyDouglasPeucker(resultSource, sqTolerance);
        resultSource := simplified.value;
      }
    }
    r := resultSource;
  }
}
