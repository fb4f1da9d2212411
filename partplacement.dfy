/**
 * The part-level placement worker (PartPlacementWorker). For one part on one
 * sheet it either finds an orientation in which the part fits the empty sheet
 * and puts it at the candidate point closest to the origin, or it unites the
 * outer no-fit polygons of the parts already placed (resuming from the clip
 * cache), subtracts that union from the sheet's inner no-fit polygon and picks
 * the candidate position with the smallest score.
 *
 * The polygon engine (sheet and outer no-fit polygons, union, difference,
 * hulls, areas, point rotation) is a parameter: an `Engine` value.
 */
module PartPlacing {
  import opened Wrappers
  import opened Numeric
  import opened Geometry
  import opened Results

  datatype InnerFlowResult = Success | Continue | Break

  datatype PlacementType = Gravity | BoundingBox | Squeeze

  datatype PlacementConfig = PlacementConfig(
    rotations: nat,
    placementType: PlacementType,
    mergeLines: bool,
    usePriority: bool)

  type Path = seq<Point>

  /** What the engine's SheetNfp reports for a part on the empty sheet. */
  datatype SheetNfp = SheetNfp(canAcceptPart: bool, items: seq<Nfp>, closestToOrigin: Point)

  /**
   * The polygon engine, as the worker sees it. `outerNfp` and `union` and
   * `difference` answer None when the engine fails; `toClipper` gives a
   * polygon's paths (outline and holes); `tolerance` is AlmostEqual's.
   */
  datatype Engine = Engine(
    sheetNfp: (Nfp, Nfp) -> SheetNfp,
    turn: Turn,
    outerNfp: (Nfp, Nfp) -> Option<Nfp>,
    toClipper: Nfp -> seq<Path>,
    union: seq<Path> -> Option<seq<Path>>,
    difference: (seq<Path>, seq<Nfp>) -> Option<seq<Path>>,
    combinedPoints: seq<PartPlacement> -> seq<Point>,
    hull: seq<Point> -> seq<Point>,
    signedArea: seq<Point> -> real,
    tolerance: real)

  /** The clip-cache key "s:{Source}r:{Rotation}", kept as the pair it is built from. */
  datatype ClipKey = ClipKey(source: int, rotation: real)

  /** A cached union and the index of the last placement folded into it. */
  datatype ClipCacheItem = ClipCacheItem(index: int, nfpp: seq<Path>)

  /** The flow results, as ProcessPart returns them. */
  const SuccessFlow: Result<InnerFlowResult> := Result.Success(InnerFlowResult.Success)
  const ContinueFlow: Result<InnerFlowResult> := Result.Success(Continue)
  const BreakFlow: Result<InnerFlowResult> := Result.Success(Break)


  // ---------------------------------------------------------------------------
  // The rotation retry for the first part on a sheet

  /** One retry: the part turned by a further step, its Rotation advanced through the setter. */
  function Turned(p: Nfp, step: real, turn: Turn): (r: Nfp)
    ensures r.id == p.id && r.source == p.source && r.isPriority == p.isPriority
    ensures r.rotation == NormaliseRotation(p.rotation + step)
    ensures r.points == RotatePoints(p.points, step, turn)
  {
    WithRotation(Rotate(p, step, Included, turn), p.rotation + step)
  }

  /** The part after k retries. */
  function TurnedTimes(p: Nfp, step: real, turn: Turn, k: nat): (r: Nfp)
    ensures r.id == p.id && r.source == p.source && r.isPriority == p.isPriority
  {
    if k == 0 then p else Turned(TurnedTimes(p, step, turn, k - 1), step, turn)
  }

  /** The orientations the retry loop tries, in order: the part after 0, 1, … n-1 retries. */
  function Orientations(p: Nfp, step: real, turn: Turn, n: nat): (r: seq<Nfp>)
    ensures |r| == n && forall i :: 0 <= i < n ==> r[i] == TurnedTimes(p, step, turn, i)
  {
    seq(n, i requires 0 <= i < n => TurnedTimes(p, step, turn, i))
  }

  /** Each orientation is the one before it turned by a further step. */
  lemma OrientationsStep(p: Nfp, step: real, turn: Turn, n: nat, j: nat)
    requires j + 1 < n
    ensures Orientations(p, step, turn, n)[j + 1] == Turned(Orientations(p, step, turn, n)[j], step, turn)
  {
  }

  /** The index of the first of parts[k..] that fits the empty sheet, or |parts| when none does. */
  function FirstFitting(sheet: Nfp, parts: seq<Nfp>, e: Engine, k: nat): (j: nat)
    requires k <= |parts|
    ensures k <= j <= |parts|
    decreases |parts| - k
  {
    if k == |parts| then k
    else if e.sheetNfp(sheet, parts[k]).canAcceptPart then k
    else FirstFitting(sheet, parts, e, k + 1)
  }

  /** FirstFitting's result fits, and none of the parts before it does. */
  lemma {:induction false} FirstFittingMeaning(sheet: Nfp, parts: seq<Nfp>, e: Engine, k: nat)
    requires k <= |parts|
    ensures var j := FirstFitting(sheet, parts, e, k);
      (forall i :: k <= i < j ==> !e.sheetNfp(sheet, parts[i]).canAcceptPart) &&
      (j < |parts| ==> e.sheetNfp(sheet, parts[j]).canAcceptPart)
    decreases |parts| - k
  {
    if k < |parts| && !e.sheetNfp(sheet, parts[k]).canAcceptPart {
      FirstFittingMeaning(sheet, parts, e, k + 1);
    }
  }

  /** Nothing fits exactly when FirstFitting runs off the end. */
  lemma NothingFits(sheet: Nfp, parts: seq<Nfp>, e: Engine)
    ensures FirstFitting(sheet, parts, e, 0) == |parts| <==>
      forall i :: 0 <= i < |parts| ==> !e.sheetNfp(sheet, parts[i]).canAcceptPart
  {
    var j := FirstFitting(sheet, parts, e, 0);
    FirstFittingMeaning(sheet, parts, e, 0);
    if j == |parts| {
      assert forall i :: 0 <= i < |parts| ==> !e.sheetNfp(sheet, parts[i]).canAcceptPart;
    } else {
      assert e.sheetNfp(sheet, parts[j]).canAcceptPart;
    }
  }

  // ---------------------------------------------------------------------------
  // The combined no-fit polygon

  /** Every vertex moved by (dx, dy), its flags kept. */
  function Translate(pts: Path, dx: real, dy: real): (r: Path)
    ensures |r| == |pts|
    ensures forall i :: 0 <= i < |pts| ==> r[i] == pts[i].(x := pts[i].x + dx, y := pts[i].y + dy)
  {
    seq(|pts|, i requires 0 <= i < |pts| => pts[i].(x := pts[i].x + dx, y := pts[i].y + dy))
  }

  /** An outer no-fit polygon moved to a placement: its outline and its holes' outlines. */
  function Moved(n: Nfp, dx: real, dy: real): (r: Nfp)
    ensures r.points == Translate(n.points, dx, dy) && |r.children| == |n.children|
    ensures forall k :: 0 <= k < |n.children| ==>
      r.children[k] == n.children[k].(points := Translate(n.children[k].points, dx, dy))
  {
    n.(points := Translate(n.points, dx, dy),
       children := seq(|n.children|, k requires 0 <= k < |n.children| =>
         n.children[k].(points := Translate(n.children[k].points, dx, dy))))
  }

  /**
   * The union's input: the cached paths, then the moved outer no-fit polygon
   * of every placement from j on; None as soon as one outer polygon is missing.
   */
  function CombineFrom(placements: seq<PartPlacement>, part: Nfp, e: Engine, j: nat, acc: seq<Path>): (r: Option<seq<Path>>)
    requires j <= |placements|
    decreases |placements| - j
  {
    if j == |placements| then Some(acc)
    else match e.outerNfp(placements[j].part, part)
      case None => Option.None
      case Some(o) =>
        CombineFrom(placements, part, e, j + 1, acc + e.toClipper(Moved(o, placements[j].x, placements[j].y)))
  }

  /** A placement from j on whose outer no-fit polygon the engine cannot give. */
  predicate MissingOuterFrom(placements: seq<PartPlacement>, part: Nfp, e: Engine, j: nat)
  {
    exists i :: j <= i < |placements| && e.outerNfp(placements[i].part, part).None?
  }

  /**
   * Folding fails exactly when some outer no-fit polygon from j on is
   * missing, and otherwise keeps the cached paths in front.
   */
  lemma {:induction false} CombineFromMeaning(placements: seq<PartPlacement>, part: Nfp, e: Engine, j: nat, acc: seq<Path>)
    requires j <= |placements|
    ensures CombineFrom(placements, part, e, j, acc).None? <==> MissingOuterFrom(placements, part, e, j)
    ensures CombineFrom(placements, part, e, j, acc).Some? ==>
      |acc| <= |CombineFrom(placements, part, e, j, acc).value| &&
      CombineFrom(placements, part, e, j, acc).value[..|acc|] == acc
    decreases |placements| - j
  {
    if j < |placements| {
      match e.outerNfp(placements[j].part, part)
      case None =>
      case Some(o) =>
        var acc' := acc + e.toClipper(Moved(o, placements[j].x, placements[j].y));
        CombineFromMeaning(placements, part, e, j + 1, acc');
        if MissingOuterFrom(placements, part, e, j) {
          var i :| j <= i < |placements| && e.outerNfp(placements[i].part, part).None?;
          assert i != j;
        }
        if CombineFrom(placements, part, e, j + 1, acc').Some? {
          var v := CombineFrom(placements, part, e, j + 1, acc').value;
          assert v[..|acc'|][..|acc|] == acc;
        }
    }
  }

  /** TryGetCombinedNfp: the folded paths united by the engine. */
  function Combined(placements: seq<PartPlacement>, part: Nfp, e: Engine, start: nat, prev: seq<Path>): Option<seq<Path>>
    requires start <= |placements|
  {
    match CombineFrom(placements, part, e, start, prev)
    case None => Option.None
    case Some(paths) => e.union(paths)
  }

  // ---------------------------------------------------------------------------
  // Scoring a candidate position

  datatype Bounds = Bounds(x: real, y: real, width: real, height: real)

  /** The bounding box of some points; all zero for none. */
  function BoundsOf(pts: seq<Point>): (b: Bounds)
    ensures b.width >= 0.0 && b.height >= 0.0
    ensures forall i :: 0 <= i < |pts| ==>
      b.x <= pts[i].x <= b.x + b.width && b.y <= pts[i].y <= b.y + b.height
  {
    if pts == [] then Bounds(0.0, 0.0, 0.0, 0.0)
    else
      var xs, ys := Xs(pts), Ys(pts);
      Bounds(MinOf(xs), MinOf(ys), MaxOf(xs) - MinOf(xs), MaxOf(ys) - MinOf(ys))
  }

  /** The four corners of the placed parts' box and of the part's box moved by (sx, sy). */
  function MergedCorners(all: Bounds, part: Bounds, sx: real, sy: real): seq<Point>
  {
    [NewPoint(all.x, all.y), NewPoint(all.x + all.width, all.y),
     NewPoint(all.x + all.width, all.y + all.height), NewPoint(all.x, all.y + all.height),
     NewPoint(part.x + sx, part.y + sy), NewPoint(part.x + part.width + sx, part.y + sy),
     NewPoint(part.x + part.width + sx, part.y + part.height + sy), NewPoint(part.x + sx, part.y + part.height + sy)]
  }

  /** The points' box runs from lo to hi horizontally when those are attained bounds of the x coordinates. */
  lemma XSpan(pts: seq<Point>, lo: real, hi: real, a: nat, b: nat)
    requires a < |pts| && b < |pts| && pts[a].x == lo && pts[b].x == hi
    requires forall i :: 0 <= i < |pts| ==> lo <= pts[i].x <= hi
    ensures BoundsOf(pts).x == lo && BoundsOf(pts).width == hi - lo
  {
    var xs := Xs(pts);
    MinOfUnique(xs, lo, a);
    MaxOfUnique(xs, hi, b);
  }

  /** The points' box runs from lo to hi vertically when those are attained bounds of the y coordinates. */
  lemma YSpan(pts: seq<Point>, lo: real, hi: real, a: nat, b: nat)
    requires a < |pts| && b < |pts| && pts[a].y == lo && pts[b].y == hi
    requires forall i :: 0 <= i < |pts| ==> lo <= pts[i].y <= hi
    ensures BoundsOf(pts).y == lo && BoundsOf(pts).height == hi - lo
  {
    var ys := Ys(pts);
    MinOfUnique(ys, lo, a);
    MaxOfUnique(ys, hi, b);
  }

  /** The width of the box around both boxes, the part's moved by sx. */
  function SpanWidth(all: Bounds, part: Bounds, sx: real): real
  {
    Max(all.x + all.width, part.x + part.width + sx) - Min(all.x, part.x + sx)
  }

  /** The height of the box around both boxes, the part's moved by sy. */
  function SpanHeight(all: Bounds, part: Bounds, sy: real): real
  {
    Max(all.y + all.height, part.y + part.height + sy) - Min(all.y, part.y + sy)
  }

  /** The merged box runs from the lower of the two left edges to the higher of the two right edges. */
  lemma MergedWidth(all: Bounds, part: Bounds, sx: real, sy: real)
    requires all.width >= 0.0 && part.width >= 0.0
    ensures BoundsOf(MergedCorners(all, part, sx, sy)).width == SpanWidth(all, part, sx)
  {
    var pts := MergedCorners(all, part, sx, sy);
    var lo, hi := Min(all.x, part.x + sx), Max(all.x + all.width, part.x + part.width + sx);
    assert forall i :: 0 <= i < 8 ==> lo <= pts[i].x <= hi;
    XSpan(pts, lo, hi, if all.x <= part.x + sx then 0 else 4, if all.x + all.width >= part.x + part.width + sx then 1 else 5);
  }

  /** The merged box runs from the lower of the two bottom edges to the higher of the two top edges. */
  lemma MergedHeight(all: Bounds, part: Bounds, sx: real, sy: real)
    requires all.height >= 0.0 && part.height >= 0.0
    ensures BoundsOf(MergedCorners(all, part, sx, sy)).height == SpanHeight(all, part, sy)
  {
    var pts := MergedCorners(all, part, sx, sy);
    var lo, hi := Min(all.y, part.y + sy), Max(all.y + all.height, part.y + part.height + sy);
    assert forall i :: 0 <= i < 8 ==> lo <= pts[i].y <= hi;
    YSpan(pts, lo, hi, if all.y <= part.y + sy then 0 else 4, if all.y + all.height >= part.y + part.height + sy then 2 else 6);
  }

  /**
   * The score of the part moved by (sx, sy): for Gravity 3·width + height of
   * the box around the placed parts and the moved part, for BoundingBox that
   * box's area, and otherwise the area of the convex hull of the placed
   * parts' hull and the moved part.
   */
  function Score(c: PlacementConfig, e: Engine, allPoints: seq<Point>, part: Nfp, sx: real, sy: real): real
  {
    match c.placementType
    case Gravity =>
      var r := BoundsOf(MergedCorners(BoundsOf(allPoints), BoundsOf(part.points), sx, sy));
      r.width * 3.0 + r.height
    case BoundingBox =>
      var r := BoundsOf(MergedCorners(BoundsOf(allPoints), BoundsOf(part.points), sx, sy));
      r.width * r.height
    case Squeeze =>
      Abs(e.signedArea(e.hull(e.hull(allPoints) + ShiftedPoints(part.points, sx, sy))))
  }

  /** The part's vertices moved by (sx, sy), as new plain points. */
  function ShiftedPoints(pts: seq<Point>, sx: real, sy: real): (r: seq<Point>)
    ensures |r| == |pts|
  {
    seq(|pts|, i requires 0 <= i < |pts| => NewPoint(pts[i].x + sx, pts[i].y + sy))
  }

  /** The Gravity score weighs the merged width three times and the height once. */
  lemma GravityScore(e: Engine, c: PlacementConfig, allPoints: seq<Point>, part: Nfp, sx: real, sy: real)
    requires c.placementType == Gravity
    ensures var a, p := BoundsOf(allPoints), BoundsOf(part.points);
      Score(c, e, allPoints, part, sx, sy) == SpanWidth(a, p, sx) * 3.0 + SpanHeight(a, p, sy)
  {
    MergedWidth(BoundsOf(allPoints), BoundsOf(part.points), sx, sy);
    MergedHeight(BoundsOf(allPoints), BoundsOf(part.points), sx, sy);
  }

  // ---------------------------------------------------------------------------
  // Choosing the position

  /** A candidate position and its score. */
  datatype Candidate = Candidate(position: PartPlacement, area: real)

  /** The part placed so that its first vertex lands on `pt`. */
  function ShiftVector(part: Nfp, pt: Point): (sv: PartPlacement)
    requires |part.points| > 0
    ensures sv.x + part.points[0].x == pt.x && sv.y + part.points[0].y == pt.y
    ensures sv.part == part && sv.id == part.id && sv.source == part.source && sv.rotation == part.rotation
  {
    PartPlacement(part, pt.x - part.points[0].x, pt.y - part.points[0].y, part.id, part.source, part.rotation)
  }

  function CandidateAt(c: PlacementConfig, e: Engine, allPoints: seq<Point>, part: Nfp, pt: Point): Candidate
    requires |part.points| > 0
  {
    var sv := ShiftVector(part, pt);
    Candidate(sv, Score(c, e, allPoints, part, sv.x, sv.y))
  }

  /** Every vertex of the difference, path by path. */
  function Flatten(paths: seq<Path>): (r: seq<Point>)
  {
    if paths == [] then [] else Flatten(paths[..|paths| - 1]) + paths[|paths| - 1]
  }

  /** The candidates in the order the worker visits them. */
  function Candidates(c: PlacementConfig, e: Engine, allPoints: seq<Point>, part: Nfp, pts: seq<Point>): (r: seq<Candidate>)
    requires |part.points| > 0
    ensures |r| == |pts|
    ensures forall i :: 0 <= i < |pts| ==> r[i] == CandidateAt(c, e, allPoints, part, pts[i])
  {
    seq(|pts|, i requires 0 <= i < |pts| => CandidateAt(c, e, allPoints, part, pts[i]))
  }

  /** The running state of the selection: minarea, minx, miny and the incumbent position. */
  datatype Choice = Choice(minArea: Option<real>, minX: Option<real>, minY: Option<real>, position: Option<PartPlacement>)

  const NoChoice := Choice(Option.None, Option.None, Option.None, Option.None)

  predicate AlmostEqual(a: real, b: real, tolerance: real)
  {
    Abs(a - b) < tolerance
  }

  /**
   * A candidate replaces the incumbent if it is the first, scores strictly
   * less, or scores almost the same and lies further left, or lies almost
   * as far left and lower.
   */
  predicate Accepts(ch: Choice, cand: Candidate, tol: real)
  {
    ch.minArea.None? || cand.area < ch.minArea.value
    || (AlmostEqual(ch.minArea.value, cand.area, tol) && (ch.minX.None? || cand.position.x < ch.minX.value))
    || (AlmostEqual(ch.minArea.value, cand.area, tol) && ch.minX.Some? && AlmostEqual(cand.position.x, ch.minX.value, tol)
        && ch.minY.Some? && cand.position.y < ch.minY.value)
  }

  /** The lower of a running minimum and a new value. */
  function RunningMin(m: Option<real>, v: real): (r: real)
    ensures m.None? ==> r == v
    ensures m.Some? ==> r == Min(m.value, v)
  {
    if m.None? || v < m.value then v else m.value
  }

  /** One visit of the selection loop. */
  function Visit(ch: Choice, cand: Candidate, tol: real): Choice
  {
    if Accepts(ch, cand, tol) then
      Choice(Some(cand.area), Some(RunningMin(ch.minX, cand.position.x)), Some(RunningMin(ch.minY, cand.position.y)),
             Some(cand.position))
    else ch
  }

  /** The selection after visiting every candidate in order. */
  function Select(cands: seq<Candidate>, tol: real): Choice
  {
    if cands == [] then NoChoice else Visit(Select(cands[..|cands| - 1], tol), cands[|cands| - 1], tol)
  }

  /** Selecting over one more candidate is one more visit. */
  lemma SelectStep(cands: seq<Candidate>, i: nat, tol: real)
    requires i < |cands|
    ensures Select(cands[..i + 1], tol) == Visit(Select(cands[..i], tol), cands[i], tol)
  {
    assert cands[..i + 1][..i] == cands[..i];
  }

  /** The candidates the selection accepted, in order. */
  function AcceptedOnes(cands: seq<Candidate>, tol: real): seq<Candidate>
  {
    if cands == [] then []
    else
      var front := cands[..|cands| - 1];
      var last := cands[|cands| - 1];
      if Accepts(Select(front, tol), last, tol) then AcceptedOnes(front, tol) + [last] else AcceptedOnes(front, tol)
  }

  function PositionsX(cs: seq<Candidate>): (r: seq<real>)
    ensures |r| == |cs| && forall i :: 0 <= i < |cs| ==> r[i] == cs[i].position.x
  {
    seq(|cs|, i requires 0 <= i < |cs| => cs[i].position.x)
  }

  function PositionsY(cs: seq<Candidate>): (r: seq<real>)
    ensures |r| == |cs| && forall i :: 0 <= i < |cs| ==> r[i] == cs[i].position.y
  {
    seq(|cs|, i requires 0 <= i < |cs| => cs[i].position.y)
  }

  /**
   * The first candidate is always taken, so the selection finds a position
   * exactly when there is a candidate, and exactly when it accepted one.
   */
  lemma {:induction false} SelectFound(cands: seq<Candidate>, tol: real)
    ensures var ch := Select(cands, tol);
      (ch.position.None? <==> cands == []) && (cands == [] <==> AcceptedOnes(cands, tol) == []) &&
      (cands == [] ==> ch == NoChoice) && (ch.position.Some? ==> ch.minArea.Some?)
  {
    if cands != [] {
      SelectFound(cands[..|cands| - 1], tol);
    }
  }

  /**
   * The position chosen is the last candidate accepted and minarea its
   * score; minx and miny are the minima of x and y over the accepted
   * candidates.
   */
  lemma {:induction false} SelectMinima(cands: seq<Candidate>, tol: real)
    requires cands != []
    ensures var ch, acc := Select(cands, tol), AcceptedOnes(cands, tol);
      acc != [] &&
      ch.position == Some(acc[|acc| - 1].position) && ch.minArea == Some(acc[|acc| - 1].area) &&
      ch.minX == Some(MinOf(PositionsX(acc))) && ch.minY == Some(MinOf(PositionsY(acc)))
  {
    var front := cands[..|cands| - 1];
    var last := cands[|cands| - 1];
    SelectFound(front, tol);
    var prev, accPrev := Select(front, tol), AcceptedOnes(front, tol);
    if front != [] {
      SelectMinima(front, tol);
    }
    if Accepts(prev, last, tol) {
      var acc := accPrev + [last];
      if accPrev != [] {
        assert PositionsX(acc)[..|accPrev|] == PositionsX(accPrev);
        assert PositionsY(acc)[..|accPrev|] == PositionsY(accPrev);
      }
    }
  }

  /** Some candidate has this position and score. */
  predicate IsCandidate(cands: seq<Candidate>, position: PartPlacement, area: real)
  {
    exists i :: 0 <= i < |cands| && cands[i] == Candidate(position, area)
  }

  /** The chosen position is one of the candidates, with its own score as minarea. */
  lemma {:induction false} SelectChoosesCandidate(cands: seq<Candidate>, tol: real)
    ensures var ch := Select(cands, tol);
      ch.position.Some? <==> ch.minArea.Some?
    ensures var ch := Select(cands, tol);
      ch.position.Some? ==> IsCandidate(cands, ch.position.value, ch.minArea.value)
  {
    if cands != [] {
      var front := cands[..|cands| - 1];
      SelectChoosesCandidate(front, tol);
      var ch := Select(cands, tol);
      if ch != Select(front, tol) {
        assert cands[|cands| - 1] == Candidate(ch.position.value, ch.minArea.value);
      } else if ch.position.Some? {
        var i :| 0 <= i < |front| && front[i] == Candidate(ch.position.value, ch.minArea.value);
        assert cands[i] == front[i];
      }
    }
  }

  /** Candidate b scores lower than every other candidate by at least the tolerance. */
  predicate StrictlyBest(cands: seq<Candidate>, b: nat, tol: real)
  {
    b < |cands| && forall i :: 0 <= i < |cands| && i != b ==> cands[i].area >= cands[b].area + tol
  }

  /**
   * A candidate that scores lower than every other by at least the
   * tolerance is always the one chosen, wherever it comes in the order.
   */
  lemma {:induction false} StrictlyBestIsChosen(cands: seq<Candidate>, b: nat, tol: real)
    requires tol > 0.0
    requires StrictlyBest(cands, b, tol)
    ensures Select(cands, tol).position == Some(cands[b].position)
    ensures Select(cands, tol).minArea == Some(cands[b].area)
  {
    var n := |cands| - 1;
    var front := cands[..n];
    if n == b {
      SelectChoosesCandidate(front, tol);
      var ch := Select(front, tol);
      if ch.minArea.Some? {
        var i :| 0 <= i < |front| && front[i] == Candidate(ch.position.value, ch.minArea.value);
        assert cands[i] == front[i];
      }
    } else {
      assert StrictlyBest(front, b, tol) by {
        forall i | 0 <= i < |front| && i != b ensures front[i].area >= front[b].area + tol {
          assert front[i] == cands[i];
        }
      }
      StrictlyBestIsChosen(front, b, tol);
      assert cands[n].area >= cands[b].area + tol;
    }
  }

  // ---------------------------------------------------------------------------
  // One call of ProcessPart

  /** What one ProcessPart call yields: the flow result (or exception), the placement made, the new clip cache. */
  datatype Outcome = Outcome(result: Result<InnerFlowResult>, placed: Option<PartPlacement>, cache: map<ClipKey, ClipCacheItem>)

  /** Every cached index names a placement already made. */
  predicate CacheFits(cache: map<ClipKey, ClipCacheItem>, placements: seq<PartPlacement>)
  {
    forall k :: k in cache ==> 0 <= cache[k].index < |placements|
  }

  /** The part as ProcessPart first copies it, holes included. */
  function Processed(input: Nfp): (p: Nfp)
    ensures p.id == input.id && p.source == input.source && p.isPriority == input.isPriority
    ensures p.points == input.points
  {
    CopyOf(input, Included, PlainPolygon)
  }

  /** The first part on a sheet, once an orientation fits: at the candidate point closest to the origin. */
  function FirstPlacement(part: Nfp, info: SheetNfp, cache: map<ClipKey, ClipCacheItem>): Outcome
  {
    if |part.points| == 0 then Outcome(Failure(IndexOutOfRange), Option.None, cache)
    else Outcome(SuccessFlow, Some(ShiftVector(part, info.closestToOrigin)), cache)
  }

  /** The scoring stage, given the non-empty difference `final`. */
  function Scored(c: PlacementConfig, e: Engine, placements: seq<PartPlacement>, part: Nfp, final: seq<Path>,
                  cache: map<ClipKey, ClipCacheItem>): Outcome
  {
    var pts := Flatten(final);
    if pts != [] && |part.points| == 0 then Outcome(Failure(IndexOutOfRange), Option.None, cache)
    else if pts != [] && c.mergeLines then Outcome(Failure(NotImplemented), Option.None, cache)
    else
      var ch := if pts == [] then NoChoice else Select(Candidates(c, e, e.combinedPoints(placements), part, pts), e.tolerance);
      if ch.position.Some? then Outcome(SuccessFlow, ch.position, cache)
      else if part.isPriority then Outcome(BreakFlow, Option.None, cache)
      else Outcome(SuccessFlow, Option.None, cache)
  }

  /** A later part on a sheet that can take it: combine, subtract, score. */
  function LaterPlacement(c: PlacementConfig, e: Engine, placements: seq<PartPlacement>, cache: map<ClipKey, ClipCacheItem>,
                          part: Nfp, info: SheetNfp): Outcome
    requires |placements| > 0 && CacheFits(cache, placements)
  {
    var key := ClipKey(part.source, part.rotation);
    var start := if key in cache then cache[key].index else 0;
    var prev := if key in cache then cache[key].nfpp else [];
    match Combined(placements, part, e, start, prev)
    case None => Outcome(ContinueFlow, Option.None, cache)
    case Some(combined) =>
      var cache' := cache[key := ClipCacheItem(|placements| - 1, combined)];
      match e.difference(combined, info.items)
      case None => Outcome(ContinueFlow, Option.None, cache')
      case Some(final) =>
        if final == [] then Outcome((if part.isPriority then BreakFlow else ContinueFlow), Option.None, cache')
        else Scored(c, e, placements, part, final, cache')
  }

  /** ProcessPart, as a function of the worker's state and the input part. */
  function ProcessOutcome(sheet: Nfp, c: PlacementConfig, e: Engine, placements: seq<PartPlacement>,
                          cache: map<ClipKey, ClipCacheItem>, input: Nfp): Outcome
    requires CacheFits(cache, placements)
  {
    var p := Processed(input);
    if |placements| == 0 then
      if c.rotations == 0 then Outcome(Failure(NullReference), Option.None, cache)
      else
        var step := 360.0 / c.rotations as real;
        var orientations := Orientations(p, step, e.turn, c.rotations);
        var j := FirstFitting(sheet, orientations, e, 0);
        if j == c.rotations then Outcome(ContinueFlow, Option.None, cache)
        else
          var part := orientations[j];
          FirstPlacement(part, e.sheetNfp(sheet, part), cache)
    else
      var info := e.sheetNfp(sheet, p);
      if info.canAcceptPart then LaterPlacement(c, e, placements, cache, p, info)
      else Outcome(SuccessFlow, Option.None, cache)
  }

  // ---------------------------------------------------------------------------
  // Properties of ProcessPart

  /**
   * A part is placed only with a Success result, as the part the worker
   * processed (same Id and Source), and the clip cache keeps fitting the
   * placements, whether or not one was added.
   */
  lemma ProcessPlacesOnSuccess(sheet: Nfp, c: PlacementConfig, e: Engine, placements: seq<PartPlacement>,
                               cache: map<ClipKey, ClipCacheItem>, input: Nfp)
    requires CacheFits(cache, placements)
    ensures var o := ProcessOutcome(sheet, c, e, placements, cache, input);
      o.placed.Some? ==> (o.result == SuccessFlow && o.placed.value.id == input.id &&
        o.placed.value.source == input.source && o.placed.value.part.id == input.id)
    ensures var o := ProcessOutcome(sheet, c, e, placements, cache, input);
      CacheFits(o.cache, placements + (if o.placed.Some? then [o.placed.value] else []))
  {
    if |placements| > 0 {
      var p := Processed(input);
      LaterPlacesOnSuccess(c, e, placements, cache, p, e.sheetNfp(sheet, p));
    }
  }

  /** The later-part branch places only with Success, the part it was given, and keeps the cache fitting. */
  lemma LaterPlacesOnSuccess(c: PlacementConfig, e: Engine, placements: seq<PartPlacement>,
                             cache: map<ClipKey, ClipCacheItem>, part: Nfp, info: SheetNfp)
    requires |placements| > 0 && CacheFits(cache, placements)
    ensures var o := LaterPlacement(c, e, placements, cache, part, info);
      CacheFits(o.cache, placements) &&
      (o.placed.Some? ==>
        o.result == SuccessFlow && o.placed.value.part == part &&
        o.placed.value.id == part.id && o.placed.value.source == part.source)
  {
    var key := ClipKey(part.source, part.rotation);
    var start := if key in cache then cache[key].index else 0;
    var prev := if key in cache then cache[key].nfpp else [];
    var comb := Combined(placements, part, e, start, prev);
    if comb.Some? {
      var cache' := cache[key := ClipCacheItem(|placements| - 1, comb.value)];
      var final := e.difference(comb.value, info.items);
      if final.Some? && final.value != [] {
        ScoredPlacesOnSuccess(c, e, placements, part, final.value, cache');
      }
    }
  }

  /** Scoring places only with Success and the part it was given, and leaves the cache alone. */
  lemma ScoredPlacesOnSuccess(c: PlacementConfig, e: Engine, placements: seq<PartPlacement>, part: Nfp, final: seq<Path>,
                              cache: map<ClipKey, ClipCacheItem>)
    ensures var o := Scored(c, e, placements, part, final, cache);
      o.cache == cache &&
      (o.placed.Some? ==>
        o.result == SuccessFlow && o.placed.value.part == part &&
        o.placed.value.id == part.id && o.placed.value.source == part.source)
  {
    var pts := Flatten(final);
    if pts != [] && |part.points| > 0 && !c.mergeLines {
      var cands := Candidates(c, e, e.combinedPoints(placements), part, pts);
      SelectChoosesCandidate(cands, e.tolerance);
      var ch := Select(cands, e.tolerance);
      if ch.position.Some? {
        var i :| 0 <= i < |cands| && cands[i] == Candidate(ch.position.value, ch.minArea.value);
      }
    }
  }

  /**
   * The first part on a sheet: with no rotations allowed the worker
   * dereferences a missing SheetNfp; otherwise it tries the orientations in
   * order (FirstFitting), returns Continue exactly when none of them fits
   * (NothingFits), and else places the part in the first orientation
   * that fits (FirstPlacement). The clip cache is not touched.
   */
  lemma FirstPartOnSheet(sheet: Nfp, c: PlacementConfig, e: Engine, input: Nfp)
    ensures c.rotations == 0 ==> ProcessOutcome(sheet, c, e, [], map[], input).result.Failure?
    ensures c.rotations > 0 ==>
      var step := 360.0 / c.rotations as real;
      var p := Processed(input);
      var o := ProcessOutcome(sheet, c, e, [], map[], input);
      var orientations := Orientations(p, step, e.turn, c.rotations);
      var j := FirstFitting(sheet, orientations, e, 0);
      o.cache == map[] && (o.result == ContinueFlow <==> j == c.rotations) &&
      (j < c.rotations ==>
        o == FirstPlacement(orientations[j], e.sheetNfp(sheet, orientations[j]), map[]))
  {
  }

  /** The first placement puts the part's first vertex on the closest candidate point, or fails on a part without vertices. */
  lemma FirstPlacementMeaning(part: Nfp, info: SheetNfp, cache: map<ClipKey, ClipCacheItem>)
    ensures var o := FirstPlacement(part, info, cache);
      (o.result.Failure? <==> |part.points| == 0) && (o.placed.Some? <==> |part.points| > 0) &&
      (o.placed.Some? ==>
        o.placed.value.part == part &&
        o.placed.value.x + part.points[0].x == info.closestToOrigin.x &&
        o.placed.value.y + part.points[0].y == info.closestToOrigin.y)
  {
  }

  /**
   * A later part: when the combined no-fit polygon cannot be built the result
   * is Continue and the cache is untouched; otherwise the cache entry for the
   * part's Source and Rotation now holds the union and the index of the last
   * placement, and every other entry is kept.
   */
  lemma ClipCacheUpdate(c: PlacementConfig, e: Engine, placements: seq<PartPlacement>,
                        cache: map<ClipKey, ClipCacheItem>, part: Nfp, info: SheetNfp)
    requires |placements| > 0 && CacheFits(cache, placements)
    ensures var key := ClipKey(part.source, part.rotation);
      var start := if key in cache then cache[key].index else 0;
      var prev := if key in cache then cache[key].nfpp else [];
      var comb := Combined(placements, part, e, start, prev);
      var o := LaterPlacement(c, e, placements, cache, part, info);
      (comb.None? ==> o.result == ContinueFlow && o.placed.None? && o.cache == cache) &&
      (comb.Some? ==>
        key in o.cache && o.cache[key] == ClipCacheItem(|placements| - 1, comb.value) &&
        forall k :: k in cache && k != key ==> k in o.cache && o.cache[k] == cache[k])
  {
  }

  /**
   * When nothing of the sheet's inner no-fit polygon is left after the
   * subtraction, or no candidate position remains, a priority part gives
   * Break and any other part Continue or Success, without a placement.
   */
  lemma NoRoomLeft(c: PlacementConfig, e: Engine, placements: seq<PartPlacement>, cache: map<ClipKey, ClipCacheItem>,
                   part: Nfp, info: SheetNfp)
    requires |placements| > 0 && CacheFits(cache, placements)
    ensures var o := LaterPlacement(c, e, placements, cache, part, info);
      o.result == BreakFlow ==> part.isPriority && o.placed.None?
    ensures var key := ClipKey(part.source, part.rotation);
      var start := if key in cache then cache[key].index else 0;
      var prev := if key in cache then cache[key].nfpp else [];
      var comb := Combined(placements, part, e, start, prev);
      comb.Some? && e.difference(comb.value, info.items) == Some([]) ==>
        LaterPlacement(c, e, placements, cache, part, info).result == (if part.isPriority then BreakFlow else ContinueFlow)
  {
  }

  /** Break comes only from a priority part. */
  lemma BreakOnlyForPriority(sheet: Nfp, c: PlacementConfig, e: Engine, placements: seq<PartPlacement>,
                             cache: map<ClipKey, ClipCacheItem>, input: Nfp)
    requires CacheFits(cache, placements)
    ensures ProcessOutcome(sheet, c, e, placements, cache, input).result == BreakFlow ==> input.isPriority
  {
    if |placements| > 0 {
      var p := Processed(input);
      NoRoomLeft(c, e, placements, cache, p, e.sheetNfp(sheet, p));
    }
  }

  /** With MergeLines on, scoring the first candidate throws. */
  lemma MergeLinesThrows(c: PlacementConfig, e: Engine, placements: seq<PartPlacement>, part: Nfp, final: seq<Path>,
                         cache: map<ClipKey, ClipCacheItem>)
    requires c.mergeLines && Flatten(final) != []
    ensures Scored(c, e, placements, part, final, cache).result.Failure?
  {
  }

  // ---------------------------------------------------------------------------
  // The worker

  /** PartPlacementWorker: the placements on one sheet so far and the clip cache. */
  class PartPlacer {
    var placements: seq<PartPlacement>
    var clipCache: map<ClipKey, ClipCacheItem>
    const sheet: Nfp
    const config: PlacementConfig
    const engine: Engine

    ghost predicate Valid()
      reads this
    {
      CacheFits(clipCache, placements)
    }

    /** A worker for one sheet, starting from the placements already on it and an empty clip cache. */
    constructor (sheet: Nfp, config: PlacementConfig, engine: Engine, placements: seq<PartPlacement>)
      ensures Valid()
      ensures this.sheet == sheet && this.config == config && this.engine == engine
      ensures this.placements == placements && clipCache == map[]
    {
      this.sheet := sheet;
      this.config := config;
      this.engine := engine;
      this.placements := placements;
      this.clipCache := map[];
    }

    /** The orientation retry loop: the first orientation that fits the empty sheet, if any. */
    method FitFirst(p: Nfp, step: real) returns (fits: bool, part: Nfp, info: SheetNfp)
      requires config.rotations > 0
      ensures var orientations := Orientations(p, step, engine.turn, config.rotations);
        var j := FirstFitting(sheet, orientations, engine, 0);
        (fits <==> j < config.rotations) &&
        (fits ==> part == orientations[j] && info == engine.sheetNfp(sheet, part))
    {
      part := p;
      fits := false;
      info := engine.sheetNfp(sheet, part);
      ghost var orientations := Orientations(p, step, engine.turn, config.rotations);
      var j := 0;
      while j < config.rotations
        invariant 0 <= j <= config.rotations
        invariant j < config.rotations ==> part == orientations[j]
        invariant FirstFitting(sheet, orientations, engine, 0) == FirstFitting(sheet, orientations, engine, j)
        decreases config.rotations - j
      {
        info := engine.sheetNfp(sheet, part);
        if info.canAcceptPart {
          fits := true;
          break;
        }
        if j + 1 < config.rotations {
          OrientationsStep(p, step, engine.turn, config.rotations, j);
        }
        part := Turned(part, step, engine.turn);
        j := j + 1;
      }
    }

    /** TryGetCombinedNfp: fold the moved outer no-fit polygons from `start` on, then unite. */
    method TryGetCombinedNfp(part: Nfp, start: nat, prev: seq<Path>) returns (ok: bool, combined: seq<Path>)
      requires start <= |placements|
      ensures ok <==> Combined(placements, part, engine, start, prev).Some?
      ensures ok ==> combined == Combined(placements, part, engine, start, prev).value
    {
      var paths := prev;
      var j := start;
      while j < |placements|
        invariant start <= j <= |placements|
        invariant CombineFrom(placements, part, engine, start, prev) == CombineFrom(placements, part, engine, j, paths)
        decreases |placements| - j
      {
        var outer := engine.outerNfp(placements[j].part, part);
        if outer.None? {
          return false, [];
        }
        paths := paths + engine.toClipper(Moved(outer.value, placements[j].x, placements[j].y));
        j := j + 1;
      }
      var united := engine.union(paths);
      if united.None? {
        return false, [];
      }
      return true, united.value;
    }

    /** The selection loop over the candidate points. */
    method ChoosePosition(part: Nfp, pts: seq<Point>) returns (choice: Choice)
      requires |part.points| > 0
      ensures choice == Select(Candidates(config, engine, engine.combinedPoints(placements), part, pts), engine.tolerance)
    {
      var allPoints := engine.combinedPoints(placements);
      ghost var cands := Candidates(config, engine, allPoints, part, pts);
      var tol := engine.tolerance;
      var minArea: Option<real> := Option.None;
      var minX: Option<real> := Option.None;
      var minY: Option<real> := Option.None;
      var position: Option<PartPlacement> := Option.None;
      for i := 0 to |pts|
        invariant Choice(minArea, minX, minY, position) == Select(cands[..i], tol)
      {
        var shiftVector := ShiftVector(part, pts[i]);
        var area := Score(config, engine, allPoints, part, shiftVector.x, shiftVector.y);
        SelectStep(cands, i, tol);
        assert cands[i] == Candidate(shiftVector, area);
        if minArea.None? || area < minArea.value
          || (AlmostEqual(minArea.value, area, tol) && (minX.None? || shiftVector.x < minX.value))
          || (AlmostEqual(minArea.value, area, tol) && minX.Some? && AlmostEqual(shiftVector.x, minX.value, tol)
              && minY.Some? && shiftVector.y < minY.value)
        {
          minArea := Some(area);
          position := Some(shiftVector);
          if minX.None? || shiftVector.x < minX.value {
            minX := Some(shiftVector.x);
          }
          if minY.None? || shiftVector.y < minY.value {
            minY := Some(shiftVector.y);
          }
        }
      }
      assert cands[..|pts|] == cands;
      choice := Choice(minArea, minX, minY, position);
    }

    /** Appends the placement made: the worker's half of AddPlacement. */
    method AddPlacement(position: PartPlacement)
      requires Valid()
      modifies this`placements
      ensures placements == old(placements) + [position]
      ensures Valid()
    {
      placements := placements + [position];
    }

    /**
     * ProcessPart: one part on this sheet. The flow result (or the exception
     * thrown), the placement made and the new clip cache are those of
     * ProcessOutcome; a placement made is appended to the placements.
     */
    method ProcessPart(inputPart: Nfp) returns (result: Result<InnerFlowResult>, placed: Option<PartPlacement>)
      requires Valid()
      modifies this`placements, this`clipCache
      ensures Valid()
      ensures var o := ProcessOutcome(sheet, config, engine, old(placements), old(clipCache), inputPart);
        result == o.result && placed == o.placed && clipCache == o.cache
      ensures placements == old(placements) + (if placed.Some? then [placed.value] else [])
      ensures placed.Some? ==> result == SuccessFlow && placed.value.id == inputPart.id
    {
      ProcessPlacesOnSuccess(sheet, config, engine, placements, clipCache, inputPart);
      var processedPart := Processed(inputPart);
      placed := Option.None;
      if |placements| == 0 {
        if config.rotations == 0 {
          return Failure(NullReference), Option.None;
        }
        var step := 360.0 / config.rotations as real;
        var fits, part, info := FitFirst(processedPart, step);
        if !fits {
          return ContinueFlow, Option.None;
        }
        if |part.points| == 0 {
          return Failure(IndexOutOfRange), Option.None;
        }
        var position := ShiftVector(part, info.closestToOrigin);
        AddPlacement(position);
        return SuccessFlow, Some(position);
      }
      var info := engine.sheetNfp(sheet, processedPart);
      if !info.canAcceptPart {
        return SuccessFlow, Option.None;
      }
      result, placed := PlaceLater(processedPart, info);
    }

    /** The later-part branch of ProcessPart: clip cache, combination, difference and scoring. */
    method PlaceLater(part: Nfp, info: SheetNfp) returns (result: Result<InnerFlowResult>, placed: Option<PartPlacement>)
      requires Valid() && |placements| > 0
      modifies this`placements, this`clipCache
      ensures Valid()
      ensures var o := LaterPlacement(config, engine, old(placements), old(clipCache), part, info);
        result == o.result && placed == o.placed && clipCache == o.cache
      ensures placements == old(placements) + (if placed.Some? then [placed.value] else [])
    {
      var key := ClipKey(part.source, part.rotation);
      var startIndex := 0;
      var prev: seq<Path> := [];
      if key in clipCache {
        prev := clipCache[key].nfpp;
        startIndex := clipCache[key].index;
      }
      var ok, combined := TryGetCombinedNfp(part, startIndex, prev);
      if !ok {
        return ContinueFlow, Option.None;
      }
      RememberUnion(key, combined);
      var difference := engine.difference(combined, info.items);
      if difference.None? {
        return ContinueFlow, Option.None;
      }
      var final := difference.value;
      if final == [] {
        return (if part.isPriority then BreakFlow else ContinueFlow), Option.None;
      }
      result, placed := ScoreAndPlace(part, final);
    }

    /** Stores the union under its key, with the index of the last placement folded into it. */
    method RememberUnion(key: ClipKey, combined: seq<Path>)
      requires Valid() && |placements| > 0
      modifies this`clipCache
      ensures Valid()
      ensures clipCache == old(clipCache)[key := ClipCacheItem(|placements| - 1, combined)]
    {
      clipCache := clipCache[key := ClipCacheItem(|placements| - 1, combined)];
    }

    /** The scoring stage of ProcessPart, once the difference is known to be non-empty. */
    method ScoreAndPlace(part: Nfp, final: seq<Path>) returns (result: Result<InnerFlowResult>, placed: Option<PartPlacement>)
      requires Valid()
      modifies this`placements
      ensures Valid()
      ensures var o := Scored(config, engine, old(placements), part, final, clipCache);
        result == o.result && placed == o.placed
      ensures placements == old(placements) + (if placed.Some? then [placed.value] else [])
    {
      var pts := Flatten(final);
      if pts != [] && |part.points| == 0 {
        return Failure(IndexOutOfRange), Option.None;
      }
      if pts != [] && config.mergeLines {
        return Failure(NotImplemented), Option.None;
      }
      var choice := NoChoice;
      if pts != [] {
        choice := ChoosePosition(part, pts);
      }
      if choice.position.Some? {
        AddPlacement(choice.position.value);
        return SuccessFlow, choice.position;
      } else if part.isPriority {
        return BreakFlow, Option.None;
      }
      return SuccessFlow, Option.None;
    }
  }
}
