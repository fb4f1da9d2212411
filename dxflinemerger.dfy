/**
 * DxfLineMerger: polylines are split into their segments, and segments that
 * lie on one line and touch or overlap are merged, pass after pass, until a
 * pass no longer changes how many entities there are.
 */
module DxfMerging {
  import opened Wrappers
  import opened Numeric
  import opened DxfLines

  /** Differences of slope and intercept below this count as none. */
  const Tolerance: real := 0.0001

  const NotCoincident: string := "InvalidOperationException: Mergelines are not coincident."
  const DecimalOverflow: string := "OverflowException"

  /*
   * Lines on one line
   */

  /**
   * `a - b` on .NET decimals: the difference, unless it rounds to a value
   * beyond decimal.MaxValue, which throws.
   */
  function DecimalDifference(a: real, b: real): (r: Result<real>)
    ensures r.Success? <==> -(DecimalMax + 0.5) < a - b < DecimalMax + 0.5
    ensures r.Success? ==> r.value == a - b
  {
    if a - b >= DecimalMax + 0.5 || a - b <= -(DecimalMax + 0.5) then Failure(DecimalOverflow)
    else Success(a - b)
  }

  /** One decimal difference compared with the tolerance, or the overflow it throws. */
  function BelowTolerance(a: real, b: real): (r: Result<bool>)
    ensures r.Success? <==> DecimalDifference(a, b).Success?
    ensures r.Success? ==> (r.value <==> a - b < Tolerance)
  {
    match DecimalDifference(a, b)
    case Failure(e) => Failure(e)
    case Success(d) => Success(d < Tolerance)
  }

  /**
   * Coaligned as written: both lines vertical, or the slope of `current`
   * less that of `prior` below the tolerance; and then the same for the
   * intercepts. The differences are signed and taken on decimals, so the
   * slope difference of a vertical line after one falling by half a unit or
   * more overflows.
   */
  function CoalignedAsWritten(prior: DxfLine, current: DxfLine): (r: Result<bool>)
  {
    var slopes :=
      if IsVertical(current) && IsVertical(prior) then Success(true)
      else BelowTolerance(Slope(current), Slope(prior));
    if slopes.Failure? || !slopes.value then slopes
    else BelowTolerance(Intercept(current), Intercept(prior))
  }

  /**
   * Coaligned as intended: a vertical and a non-vertical line are never on
   * one line; otherwise as written, with signed differences of slope and
   * intercept, and nothing throws.
   */
  predicate Coaligned(prior: DxfLine, current: DxfLine)
  {
    ((IsVertical(current) && IsVertical(prior)) ||
     (!IsVertical(current) && !IsVertical(prior) && Slope(current) - Slope(prior) < Tolerance)) &&
    Intercept(current) - Intercept(prior) < Tolerance
  }

  /**
   * A line that is not vertical has a slope at least one unit short of
   * decimal.MaxValue either way, as any drawing short of astronomically steep
   * segments does.
   */
  predicate SlopeFits(l: DxfLine)
  {
    !IsVertical(l) ==> -(DecimalMax - 1.0) <= Slope(l) <= DecimalMax - 1.0
  }

  /**
   * The written Coaligned throws exactly when a vertical line follows a line
   * falling by at least half a unit per unit; a vertical line sorts after
   * every other, so the walk meets this whenever a drawing has a vertical
   * line and its other lines all fall that steeply.
   */
  lemma CoalignedAsWrittenThrows(prior: DxfLine, current: DxfLine)
    requires !IsVertical(prior) && IsVertical(current) && SlopeFits(prior)
    ensures CoalignedAsWritten(prior, current).Failure? <==> Slope(prior) <= -0.5
  {
  }

  /**
   * Wherever the written Coaligned does not throw, it agrees with the
   * intended one, except for a non-vertical line after a vertical one, which
   * the sorted order never presents.
   */
  lemma CoalignedAsWrittenAgrees(prior: DxfLine, current: DxfLine)
    requires CoalignedAsWritten(prior, current).Success? && SlopeFits(prior)
    requires !(IsVertical(prior) && !IsVertical(current))
    ensures CoalignedAsWritten(prior, current).value == Coaligned(prior, current)
  {
    if !IsVertical(prior) && IsVertical(current) {
      assert Slope(current) - Slope(prior) >= 1.0;
    }
  }

  /** The falling line from (0, 1) to (1, 0) and the vertical line at X = 5. */
  function FallingLine(): DxfLine
  {
    DxfLine(DxfPoint(0.0, 1.0, 0.0), DxfPoint(1.0, 0.0, 0.0))
  }

  function VerticalLine(): DxfLine
  {
    DxfLine(DxfPoint(5.0, 0.0, 0.0), DxfPoint(5.0, 1.0, 0.0))
  }

  /** A falling line of slope -1 followed by a vertical line makes the written Coaligned throw. */
  lemma FallingThenVerticalThrows()
    ensures CoalignedAsWritten(FallingLine(), VerticalLine()).Failure?
    ensures !Coaligned(FallingLine(), VerticalLine())
  {
    var p := FallingLine();
    assert Pow10(FractionalDigits) == 10000.0 by {
      assert Pow10(1) == 10.0;
      assert Pow10(2) == 100.0;
      assert Pow10(3) == 1000.0;
    }
    assert RoundTo(0.0, FractionalDigits) == 0.0;
    assert RoundTo(1.0, FractionalDigits) == 1.0 by {
      assert RoundHalfEven(10000.0) == 10000;
    }
    assert !IsVertical(p);
    assert Left(p) == p.p1 && Right(p) == p.p2;
    assert RoundTo(-1.0, FractionalDigits) == -1.0 by {
      assert RoundHalfEven(-10000.0) == -10000;
    }
    assert Slope(p) == -1.0;
    VerticalFacts(VerticalLine());
    CoalignedAsWrittenThrows(p, VerticalLine());
  }

  /** PairCoincident: an end of `current` lies within the Y span of `prior`. */
  predicate PairCoincident(prior: DxfLine, current: DxfLine)
  {
    (Left(current).y >= Left(prior).y && Left(current).y <= Right(prior).y) ||
    (Right(current).y >= Left(prior).y && Right(current).y <= Right(prior).y)
  }

  /** Two closed intervals share a point. */
  predicate Overlap(lo1: real, hi1: real, lo2: real, hi2: real)
  {
    Max(lo1, lo2) <= Min(hi1, hi2)
  }

  /**
   * Coincident: the lines are coaligned and, for vertical lines, their Y
   * spans overlap; for other lines, `current` starts within the X span of
   * `prior`.
   */
  function Coincident(prior: DxfLine, current: DxfLine): (r: bool)
    ensures r ==> Coaligned(prior, current)
    ensures r ==> IsVertical(prior) == IsVertical(current)
    ensures IsVertical(prior) ==>
      (r <==> Coaligned(prior, current) &&
              Overlap(Left(prior).y, Right(prior).y, Left(current).y, Right(current).y))
    ensures !IsVertical(prior) ==>
      (r <==> Coaligned(prior, current) && Left(prior).x <= Left(current).x <= Right(prior).x)
  {
    if Coaligned(prior, current) then
      if IsVertical(prior) then PairCoincident(prior, current) || PairCoincident(current, prior)
      else Left(current).x >= Left(prior).x && Left(current).x <= Right(prior).x
    else false
  }

  /**
   * GetCombined: fails unless the lines are coincident and coaligned. Two
   * vertical lines make one at the X of a's lower end from the lowest to the
   * highest of the four ends; other lines make one from a's left end to the
   * further right end's X, on b's line.
   */
  function GetCombined(a: DxfLine, b: DxfLine): (r: Result<DxfLine>)
    ensures r.Success? <==> Coincident(a, b)
  {
    if !Coincident(a, b) || !Coaligned(a, b) then Failure(NotCoincident)
    else if IsVertical(b) then
      var minY := Min(Min(Left(a).y, Right(a).y), Min(Left(b).y, Right(b).y));
      var maxY := Max(Max(Left(a).y, Right(a).y), Max(Left(b).y, Right(b).y));
      Success(DxfLine(DxfPoint(Left(a).x, minY, 0.0), DxfPoint(Left(a).x, maxY, 0.0)))
    else
      var x := Max(Right(b).x, Right(a).x);
      Success(DxfLine(Left(a), DxfPoint(x, OnLine(Slope(b), Intercept(b), x), 0.0)))
  }

  /** The Y at X = x of the line with slope s and intercept i. */
  function OnLine(s: real, i: real, x: real): real
  {
    s * x + i
  }

  /**
   * Two coincident vertical lines combine into one at the X of a's lower end
   * whose ends are the lowest and the highest of the four ends, so it spans
   * both.
   */
  lemma CombinedVertical(a: DxfLine, b: DxfLine)
    requires Coincident(a, b) && IsVertical(b)
    ensures var c := GetCombined(a, b).value;
      c.p1.x == Left(a).x && c.p2.x == Left(a).x &&
      c.p1.y <= Left(a).y && c.p1.y <= Right(a).y && c.p1.y <= Left(b).y && c.p1.y <= Right(b).y &&
      c.p2.y >= Left(a).y && c.p2.y >= Right(a).y && c.p2.y >= Left(b).y && c.p2.y >= Right(b).y &&
      (c.p1.y == Left(a).y || c.p1.y == Right(a).y || c.p1.y == Left(b).y || c.p1.y == Right(b).y) &&
      (c.p2.y == Left(a).y || c.p2.y == Right(a).y || c.p2.y == Left(b).y || c.p2.y == Right(b).y)
  {
  }

  /**
   * Two coincident lines that are not vertical combine into one from a's
   * left end, which is not right of b's, to the further of the two right
   * ends' X, on b's line, so it spans both in X.
   */
  lemma CombinedSloped(a: DxfLine, b: DxfLine)
    requires Coincident(a, b) && !IsVertical(b)
    ensures var c := GetCombined(a, b).value;
      c.p1 == Left(a) && c.p1.x <= Left(b).x &&
      c.p2.x >= Right(a).x && c.p2.x >= Right(b).x &&
      (c.p2.x == Right(a).x || c.p2.x == Right(b).x) &&
      c.p2.y == OnLine(Slope(b), Intercept(b), c.p2.x)
  {
  }

  /** The combination of two coincident lines. */
  function Combined(a: DxfLine, b: DxfLine): (r: DxfLine)
    requires Coincident(a, b)
    ensures GetCombined(a, b) == Success(r)
  {
    GetCombined(a, b).value
  }

  /*
   * Merging a list of lines
   */

  /** The sort key: slope, then intercept, then the lower end's Y or X, then its Y. */
  datatype LineKey = LineKey(slope: real, intercept: real, along: real, leftY: real)

  function KeyOf(l: DxfLine): (k: LineKey)
    ensures k.slope == Slope(l) && k.intercept == Intercept(l) && k.leftY == Left(l).y
    ensures k.along == if IsVertical(l) then Left(l).y else Left(l).x
  {
    LineKey(Slope(l), Intercept(l), if IsVertical(l) then Left(l).y else Left(l).x, Left(l).y)
  }

  /** OrderBy ... ThenBy ...: the keys compared field by field. */
  predicate KeyLe(a: LineKey, b: LineKey)
  {
    a.slope < b.slope || (a.slope == b.slope &&
    (a.intercept < b.intercept || (a.intercept == b.intercept &&
    (a.along < b.along || (a.along == b.along && a.leftY <= b.leftY)))))
  }

  predicate SortedByKey<T>(s: seq<T>, key: T -> LineKey)
  {
    forall i, j :: 0 <= i < j < |s| ==> KeyLe(key(s[i]), key(s[j]))
  }

  /** Inserts x in front of the first element whose key is at least x's, so x stays before its ties. */
  function InsertByKey<T>(x: T, s: seq<T>, key: T -> LineKey): (r: seq<T>)
    ensures multiset(r) == multiset(s) + multiset{x}
    ensures |r| == |s| + 1
  {
    if |s| == 0 then [x]
    else if KeyLe(key(x), key(s[0])) then [x] + s
    else
      assert s == [s[0]] + s[1..];
      [s[0]] + InsertByKey(x, s[1..], key)
  }

  lemma {:induction false} InsertByKeySorted<T>(x: T, s: seq<T>, key: T -> LineKey)
    requires SortedByKey(s, key)
    ensures SortedByKey(InsertByKey(x, s, key), key)
  {
    if |s| > 0 && !KeyLe(key(x), key(s[0])) {
      var tail := InsertByKey(x, s[1..], key);
      InsertByKeySorted(x, s[1..], key);
      forall k | 0 <= k < |tail|
        ensures KeyLe(key(s[0]), key(tail[k]))
      {
        assert tail[k] in multiset(tail);
        if tail[k] != x {
          assert tail[k] in multiset(s[1..]);
          var j :| 0 <= j < |s[1..]| && s[1..][j] == tail[k];
          assert s[1 + j] == tail[k];
        }
      }
      assert InsertByKey(x, s, key) == [s[0]] + tail;
    }
  }

  /** The stable sort of the lines by their keys. */
  function SortLines(s: seq<DxfLine>): (r: seq<DxfLine>)
    ensures multiset(r) == multiset(s)
    ensures |r| == |s|
    ensures SortedByKey(r, KeyOf)
  {
    if |s| == 0 then []
    else
      assert s == [s[0]] + s[1..];
      var rest := SortLines(s[1..]);
      InsertByKeySorted(s[0], rest, KeyOf);
      InsertByKey(s[0], rest, KeyOf)
  }

  /** The elements whose key is k, in their order in s. */
  function WithKey<T>(s: seq<T>, key: T -> LineKey, k: LineKey): seq<T>
  {
    if |s| == 0 then []
    else (if key(s[0]) == k then [s[0]] else []) + WithKey(s[1..], key, k)
  }

  /** Inserting x puts it after nothing with its own key, so among its ties it comes first. */
  lemma {:induction false} InsertByKeyTies<T>(x: T, s: seq<T>, key: T -> LineKey, k: LineKey)
    ensures WithKey(InsertByKey(x, s, key), key, k) == (if key(x) == k then [x] else []) + WithKey(s, key, k)
  {
    var r := InsertByKey(x, s, key);
    if |s| == 0 {
      assert r[1..] == [];
    } else if KeyLe(key(x), key(s[0])) {
      assert r == [x] + s && r[1..] == s;
    } else {
      var tail := InsertByKey(x, s[1..], key);
      assert r == [s[0]] + tail && r[1..] == tail;
      InsertByKeyTies(x, s[1..], key, k);
      assert key(s[0]) != key(x);
    }
  }

  /**
   * OrderBy ... ThenBy ... is stable: the lines of any one key come out
   * of the sort in the order they went in.
   */
  lemma {:induction false} SortLinesStable(s: seq<DxfLine>, k: LineKey)
    ensures WithKey(SortLines(s), KeyOf, k) == WithKey(s, KeyOf, k)
  {
    if |s| > 0 {
      SortLinesStable(s[1..], k);
      InsertByKeyTies(s[0], SortLines(s[1..]), KeyOf, k);
    }
  }

  /**
   * The walk over sorted lines: each line either merges into the last line
   * kept, replacing it with their combination, or is kept after it.
   */
  function Merged(s: seq<DxfLine>): (r: seq<DxfLine>)
    ensures |r| <= |s|
    ensures |s| > 0 ==> |r| > 0
  {
    if |s| == 0 then []
    else
      var m := Merged(s[..|s| - 1]);
      var x := s[|s| - 1];
      if |m| == 0 then [x]
      else if Coincident(m[|m| - 1], x) then m[..|m| - 1] + [Combined(m[|m| - 1], x)]
      else m + [x]
  }

  /** MergeLines over lines: a list of at most one line is returned as it is. */
  function MergeLinesOf(list: seq<DxfLine>): (r: seq<DxfLine>)
    ensures |r| <= |list|
    ensures |list| <= 1 ==> r == list
    ensures |list| > 1 ==> 0 < |r|
  {
    if |list| <= 1 then list else Merged(SortLines(list))
  }

  /** One more sorted line: it merges into the last line kept, or is kept after it. */
  lemma MergedNext(s: seq<DxfLine>, c: nat)
    requires c < |s|
    ensures var m := Merged(s[..c]);
      Merged(s[..c + 1]) ==
        if |m| == 0 then [s[c]]
        else if Coincident(m[|m| - 1], s[c]) then m[..|m| - 1] + [Combined(m[|m| - 1], s[c])]
        else m + [s[c]]
  {
    assert s[..c + 1][..c] == s[..c];
  }

  /** The first element after a prefix splits off the rest. */
  lemma SplitAt<T>(m: seq<T>, t: seq<T>)
    requires |t| > 0
    ensures (m + t)[|m|] == t[0] && m + t == (m + [t[0]]) + t[1..]
  {
  }

  /** Removing the element after a prefix and overwriting the prefix's last one. */
  lemma RemoveAndReplace<T>(m: seq<T>, t: seq<T>, c: T)
    requires |m| > 0 && |t| > 0
    ensures ((m + t)[..|m|] + (m + t)[|m| + 1..])[|m| - 1 := c] == (m[..|m| - 1] + [c]) + t[1..]
  {
    assert (m + t)[..|m|] == m;
    assert (m + t)[|m| + 1..] == t[1..];
  }

  /** The state of the walk after `consumed` sorted lines: the lines kept, then those still to come. */
  ghost predicate Walked(sorted: seq<DxfLine>, consumed: nat, lines: seq<DxfLine>, i: nat, prior: Option<DxfLine>)
  {
    consumed <= |sorted| &&
    i == |Merged(sorted[..consumed])| &&
    lines == Merged(sorted[..consumed]) + sorted[consumed..] &&
    prior == if i == 0 then Option.None else Option.Some(lines[i - 1])
  }

  /** One turn of the walk: the next line merges into the previous one or becomes it. */
  method MergeTurn(ghost sorted: seq<DxfLine>, ghost consumed: nat, lines: seq<DxfLine>, i: nat, prior: Option<DxfLine>)
    returns (lines': seq<DxfLine>, i': nat, prior': Option<DxfLine>)
    requires Walked(sorted, consumed, lines, i, prior) && i < |lines|
    ensures Walked(sorted, consumed + 1, lines', i', prior')
    ensures |lines'| - i' < |lines| - i
  {
    ghost var m := Merged(sorted[..consumed]);
    ghost var t := sorted[consumed..];
    MergedNext(sorted, consumed);
    SplitAt(m, t);
    assert t[1..] == sorted[consumed + 1..];
    if prior.None? {
      lines', i', prior' := lines, i + 1, Option.Some(lines[i]);
    } else {
      var current := lines[i];
      assert prior.value == m[|m| - 1] && current == t[0];
      if Coincident(prior.value, current) {
        lines' := lines[..i] + lines[i + 1..];
        i' := i - 1;
        var combined := GetCombined(prior.value, current).value;
        lines' := lines'[i' := combined];
        prior' := Option.Some(combined);
        RemoveAndReplace(m, t, combined);
        i' := i' + 1;
      } else {
        lines', i', prior' := lines, i + 1, Option.Some(current);
      }
    }
  }

  /**
   * The walk over the sorted lines, keeping the previous line; a line
   * coincident with it is removed and the previous line is replaced by their
   * combination.
   */
  method Walk(sorted: seq<DxfLine>) returns (r: seq<DxfLine>)
    ensures r == Merged(sorted)
  {
    var lines := sorted;
    ghost var consumed: nat := 0;
    var prior: Option<DxfLine> := Option.None;
    var i: nat := 0;
    while i < |lines|
      invariant Walked(sorted, consumed, lines, i, prior)
      decreases |lines| - i
    {
      lines, i, prior := MergeTurn(sorted, consumed, lines, i, prior);
      consumed := consumed + 1;
    }
    assert sorted[consumed..] == [];
    assert sorted[..consumed] == sorted;
    r := lines;
  }

  /** MergeLines over lines: at most one line is returned as it is; more are sorted, then walked. */
  method MergeLineList(list: seq<DxfLine>) returns (r: seq<DxfLine>)
    ensures r == MergeLinesOf(list)
  {
    if |list| <= 1 {
      return list;
    }
    var lines := SortLines(list);
    r := Walk(lines);
  }

  /*
   * Entities
   */

  /** A drawing entity: a line, a polyline through its vertices, or anything else. */
  datatype Entity =
    | LineEntity(line: DxfLine)
    | PolylineEntity(vertices: seq<DxfPoint>, isClosed: bool)
    | OtherEntity(handle: nat)

  /** The segments joining each vertex to the next. */
  function Chain(vs: seq<DxfPoint>): (r: seq<DxfLine>)
    ensures |r| == if |vs| == 0 then 0 else |vs| - 1
    ensures forall k :: 0 <= k < |r| ==> r[k] == DxfLine(vs[k], vs[k + 1])
  {
    if |vs| < 2 then []
    else
      var c := Chain(vs[..|vs| - 1]);
      c + [DxfLine(vs[|vs| - 2], vs[|vs| - 1])]
  }

  /**
   * Split: a segment from each vertex to the next and, for a closed
   * polyline, one from the last vertex back to the first; a closed polyline
   * without vertices has no last vertex, and fails.
   */
  function Split(vs: seq<DxfPoint>, isClosed: bool): (r: Result<seq<DxfLine>>)
    ensures r.Failure? <==> isClosed && |vs| == 0
    ensures r.Success? ==>
      |r.value| == (if |vs| == 0 then 0 else |vs| - 1) + (if isClosed then 1 else 0)
    ensures r.Success? ==> forall k :: 0 <= k < |vs| - 1 ==> r.value[k] == DxfLine(vs[k], vs[k + 1])
    ensures r.Success? && isClosed ==> r.value[|r.value| - 1] == DxfLine(vs[|vs| - 1], vs[0])
  {
    if isClosed && |vs| == 0 then Failure(NullReference)
    else if isClosed then Success(Chain(vs) + [DxfLine(vs[|vs| - 1], vs[0])])
    else Success(Chain(vs))
  }

  function AsEntities(lines: seq<DxfLine>): (r: seq<Entity>)
    ensures |r| == |lines| && forall k :: 0 <= k < |lines| ==> r[k] == LineEntity(lines[k])
  {
    seq(|lines|, k requires 0 <= k < |lines| => LineEntity(lines[k]))
  }

  predicate NoPolylines(es: seq<Entity>)
  {
    forall k :: 0 <= k < |es| ==> !es[k].PolylineEntity?
  }

  /** SplitLines: each polyline is replaced by its segments; lines and other entities pass through. */
  function SplitLines(es: seq<Entity>): (r: Result<seq<Entity>>)
    ensures r.Success? ==> NoPolylines(r.value)
  {
    if |es| == 0 then Success([])
    else
      var e := es[|es| - 1];
      match SplitLines(es[..|es| - 1])
      case Failure(err) => Failure(err)
      case Success(prev) =>
        if e.PolylineEntity? then
          match Split(e.vertices, e.isClosed)
          case Failure(err) => Failure(err)
          case Success(lines) => Success(prev + AsEntities(lines))
        else Success(prev + [e])
  }

  /** The entities that are neither lines nor polylines, in order. */
  function Others(es: seq<Entity>): (r: seq<Entity>)
    ensures |r| <= |es|
    ensures forall k :: 0 <= k < |r| ==> r[k].OtherEntity?
  {
    if |es| == 0 then []
    else Others(es[..|es| - 1]) + (if es[|es| - 1].OtherEntity? then [es[|es| - 1]] else [])
  }

  lemma {:induction false} OthersAppend(a: seq<Entity>, b: seq<Entity>)
    ensures Others(a + b) == Others(a) + Others(b)
    decreases |b|
  {
    if |b| == 0 {
      assert a + b == a;
    } else {
      assert (a + b)[..|a + b| - 1] == a + b[..|b| - 1];
      assert (a + b)[|a + b| - 1] == b[|b| - 1];
      OthersAppend(a, b[..|b| - 1]);
    }
  }

  lemma {:induction false} OthersIdentity(es: seq<Entity>)
    requires forall k :: 0 <= k < |es| ==> es[k].OtherEntity?
    ensures Others(es) == es
  {
    if |es| > 0 {
      OthersIdentity(es[..|es| - 1]);
    }
  }

  lemma {:induction false} OthersOfLines(lines: seq<DxfLine>)
    ensures Others(AsEntities(lines)) == []
  {
    if |lines| > 0 {
      assert AsEntities(lines)[..|lines| - 1] == AsEntities(lines[..|lines| - 1]);
      OthersOfLines(lines[..|lines| - 1]);
    }
  }

  /** SplitLines fails exactly where a closed polyline has no vertices. */
  lemma {:induction false} SplitLinesFails(es: seq<Entity>)
    ensures SplitLines(es).Failure? <==>
      exists k :: 0 <= k < |es| && es[k].PolylineEntity? && es[k].isClosed && |es[k].vertices| == 0
  {
    if |es| > 0 {
      var init := es[..|es| - 1];
      SplitLinesFails(init);
      assert forall k :: 0 <= k < |init| ==> init[k] == es[k];
    }
  }

  /** SplitLines keeps the entities that are neither lines nor polylines, in their order. */
  lemma {:induction false} SplitLinesKeepsOthers(es: seq<Entity>)
    requires SplitLines(es).Success?
    ensures Others(SplitLines(es).value) == Others(es)
  {
    if |es| > 0 {
      var init, e := es[..|es| - 1], es[|es| - 1];
      SplitLinesKeepsOthers(init);
      var prev := SplitLines(init).value;
      if e.PolylineEntity? {
        var lines := Split(e.vertices, e.isClosed).value;
        OthersAppend(prev, AsEntities(lines));
        OthersOfLines(lines);
      } else {
        OthersAppend(prev, [e]);
        assert Others([e]) == (if e.OtherEntity? then [e] else []) by {
          assert [e][..0] == [];
        }
      }
      assert es == init + [e];
      OthersAppend(init, [e]);
      assert Others([e]) == (if e.OtherEntity? then [e] else []) by {
        assert [e][..0] == [];
      }
    }
  }

  /** SplitLines leaves a list without polylines as it is. */
  lemma {:induction false} SplitLinesIdentity(es: seq<Entity>)
    requires NoPolylines(es)
    ensures SplitLines(es) == Success(es)
  {
    if |es| > 0 {
      var init, e := es[..|es| - 1], es[|es| - 1];
      assert NoPolylines(init) by {
        forall k | 0 <= k < |init|
          ensures !init[k].PolylineEntity?
        {
          assert init[k] == es[k];
        }
      }
      SplitLinesIdentity(init);
      assert !e.PolylineEntity?;
      assert es == init + [e];
    }
  }

  /** The entities that are not lines, in order. */
  function NonLines(es: seq<Entity>): seq<Entity>
  {
    if |es| == 0 then []
    else
      var e := es[|es| - 1];
      NonLines(es[..|es| - 1]) + (if e.LineEntity? then [] else [e])
  }

  /** Without polylines, the entities that are not lines are exactly the others. */
  lemma {:induction false} NonLinesOthers(es: seq<Entity>)
    requires NoPolylines(es)
    ensures NonLines(es) == Others(es)
  {
    if |es| > 0 {
      NonLinesOthers(es[..|es| - 1]);
    }
  }

  /** The lines among the entities, in order; with the others they account for every entity. */
  function LinesOf(es: seq<Entity>): (r: seq<DxfLine>)
    ensures |r| + |NonLines(es)| == |es|
  {
    if |es| == 0 then []
    else
      var e := es[|es| - 1];
      LinesOf(es[..|es| - 1]) + (if e.LineEntity? then [e.line] else [])
  }

  /** DoMergeLines: the split entities that are not lines, then the merged lines. */
  function DoMergeOf(es: seq<Entity>): (r: Result<seq<Entity>>)
    ensures r.Success? <==> SplitLines(es).Success?
    ensures r.Success? ==> NoPolylines(r.value)
    ensures r.Success? ==> |r.value| <= |SplitLines(es).value|
  {
    match SplitLines(es)
    case Failure(err) => Failure(err)
    case Success(split) =>
      NonLinesOthers(split);
      Success(NonLines(split) + AsEntities(MergeLinesOf(LinesOf(split))))
  }

  /** A pass keeps the entities that are neither lines nor polylines, in their order. */
  lemma DoMergeKeepsOthers(es: seq<Entity>)
    requires DoMergeOf(es).Success?
    ensures Others(DoMergeOf(es).value) == Others(es)
  {
    var split := SplitLines(es).value;
    SplitLinesKeepsOthers(es);
    var merged := MergeLinesOf(LinesOf(split));
    OthersAppend(NonLines(split), AsEntities(merged));
    OthersOfLines(merged);
    NonLinesOthers(split);
    OthersIdentity(Others(split));
  }

  /** A pass over entities without polylines succeeds and never adds an entity. */
  lemma DoMergeShrinks(es: seq<Entity>)
    requires NoPolylines(es)
    ensures DoMergeOf(es).Success? && |DoMergeOf(es).value| <= |es|
  {
    SplitLinesIdentity(es);
  }

  /** DoMergeLines: the same pass, building the result list. */
  method DoMergeLines(es: seq<Entity>) returns (r: Result<seq<Entity>>)
    ensures r == DoMergeOf(es)
  {
    var split := SplitLines(es);
    if split.Failure? {
      return Failure(split.error);
    }
    var result := NonLines(split.value);
    var merged := MergeLineList(LinesOf(split.value));
    result := result + AsEntities(merged);
    r := Success(result);
  }

  /** Passes after the first, over entities without polylines, until the count holds. */
  function Settle(es: seq<Entity>): (r: seq<Entity>)
    requires NoPolylines(es)
    ensures NoPolylines(r) && |r| <= |es|
    ensures Others(r) == Others(es)
    decreases |es|
  {
    DoMergeShrinks(es);
    DoMergeKeepsOthers(es);
    var next := DoMergeOf(es).value;
    if |next| == |es| then next else Settle(next)
  }

  /**
   * MergeLines over entities: passes repeat while a pass changes the
   * entity count. The first pass splits the polylines and may add
   * entities; every later pass only merges, so the count only falls.
   */
  function MergeEntitiesOf(es: seq<Entity>): (r: Result<seq<Entity>>)
    ensures r.Success? <==> SplitLines(es).Success?
    ensures r.Success? ==> NoPolylines(r.value) && |r.value| <= |SplitLines(es).value|
  {
    match DoMergeOf(es)
    case Failure(err) => Failure(err)
    case Success(first) => if |first| == |es| then Success(first) else Success(Settle(first))
  }

  /** Merging keeps the entities that are neither lines nor polylines, in their order. */
  lemma MergeEntitiesKeepsOthers(es: seq<Entity>)
    requires MergeEntitiesOf(es).Success?
    ensures Others(MergeEntitiesOf(es).value) == Others(es)
  {
    DoMergeKeepsOthers(es);
  }

  /** A list of lines alone merges into at most as many lines, and one line stays as it is. */
  lemma MergeEntitiesOfLines(lines: seq<DxfLine>)
    ensures MergeEntitiesOf(AsEntities(lines)).Success?
    ensures |MergeEntitiesOf(AsEntities(lines)).value| <= |lines|
    ensures |lines| <= 1 ==> MergeEntitiesOf(AsEntities(lines)) == Success(AsEntities(lines))
  {
    var es := AsEntities(lines);
    SplitLinesIdentity(es);
    if |lines| <= 1 {
      assert LinesOf(es) == lines by {
        if |lines| == 1 {
          assert es[..0] == [];
        }
      }
      assert NonLines(es) == [] by {
        if |lines| == 1 {
          assert es[..0] == [];
        }
      }
    }
  }

  /** MergeLines over entities: the do-while loop, one pass at a time. */
  method MergeEntities(entities: seq<Entity>) returns (r: Result<seq<Entity>>)
    ensures r == MergeEntitiesOf(entities)
  {
    var count := |entities|;
    var pass := DoMergeLines(entities);
    if pass.Failure? {
      return pass;
    }
    var current := pass.value;
    if count == |current| {
      return pass;
    }
    while count != |current|
      invariant NoPolylines(current)
      invariant count != |current| ==> Settle(current) == MergeEntitiesOf(entities).value
      invariant count == |current| ==> current == MergeEntitiesOf(entities).value
      invariant MergeEntitiesOf(entities).Success?
      decreases |current| + (if count == |current| then 0 else 1)
    {
      DoMergeShrinks(current);
      count := |current|;
      pass := DoMergeLines(current);
      current := pass.value;
    }
    r := Success(current);
  }
}
