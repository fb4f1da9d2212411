/**
 * The Minkowski-sum service (`MinkowskiSum`): it turns the polygon
 * engine's Minkowski sums into no-fit polygons. The outer NFP of a pair
 * is the engine path picked by area and moved onto the path's first
 * vertex; the tree NFP takes the largest path as its outline and the
 * others as holes, mirrored through the origin and moved onto the
 * pattern's first vertex; the native-library NFP is cached by the
 * coordinates it was asked for.
 *
 * The engine itself (Clipper's Minkowski sum, the native library, polygon
 * areas and cleaning) is a set of parameters.
 */
module Minkowski {
  import opened Wrappers
  import opened Numeric
  import opened Geometry
  import opened RunState

  datatype MinkowskiSumPick = Largest | Smallest

  /** Whether the native library's result is cleaned before it is returned. */
  datatype MinkowskiSumCleaning = Uncleaned | Cleaned

  /**
   * The native library's input, as the cache key holds it: the path's
   * coordinates, its holes' sizes and coordinates, and the pattern's.
   */
  datatype MinkowskiKey = MinkowskiKey(
    aLength: nat,
    aPoints: seq<real>,
    aChildrenLength: nat,
    childLengths: seq<nat>,
    hdat: seq<real>,
    bLength: nat,
    bPoints: seq<real>)

  /**
   * The engine: the closed-path Minkowski sum of a pattern and a negated
   * path, the sum of a pattern and a negated polygon tree, the native
   * library's NFP for a key, polygon cleaning, and the signed area.
   */
  datatype MinkowskiEngine = MinkowskiEngine(
    outerSum: (seq<Point>, seq<Point>) -> seq<seq<Point>>,
    treeSum: (seq<Point>, Nfp) -> seq<seq<Point>>,
    native: MinkowskiKey -> Nfp,
    clean: Nfp -> Nfp,
    signedArea: seq<Point> -> real)


  /** `ToNestCoordinates`: a plain polygon holding an engine path. */
  function PathPolygon(path: seq<Point>): (r: Nfp)
    ensures r.points == path && r.children == [] && r.kind == PlainPolygon
  {
    Blank(PlainPolygon).(points := path)
  }

  /** Every point moved by (dx, dy), its flags kept (the loop `p[i].X += dx`). */
  function Translated(pts: seq<Point>, dx: real, dy: real): (r: seq<Point>)
    ensures |r| == |pts|
    ensures forall i :: 0 <= i < |pts| ==> r[i] == pts[i].(x := pts[i].x + dx, y := pts[i].y + dy)
  {
    seq(|pts|, i requires 0 <= i < |pts| => pts[i].(x := pts[i].x + dx, y := pts[i].y + dy))
  }

  /** Every point mirrored through the origin and then moved by (dx, dy). */
  function Mirrored(pts: seq<Point>, dx: real, dy: real): (r: seq<Point>)
    ensures |r| == |pts|
    ensures forall i :: 0 <= i < |pts| ==> r[i] == pts[i].(x := -pts[i].x + dx, y := -pts[i].y + dy)
  {
    seq(|pts|, i requires 0 <= i < |pts| => pts[i].(x := -pts[i].x + dx, y := -pts[i].y + dy))
  }

  /** Moving by an offset and back again restores every point. */
  lemma TranslatedBack(pts: seq<Point>, dx: real, dy: real)
    ensures Translated(Translated(pts, dx, dy), -dx, -dy) == pts
  {
    var back := Translated(Translated(pts, dx, dy), -dx, -dy);
    assert forall i :: 0 <= i < |pts| ==> back[i] == pts[i];
  }

  /** Mirroring twice about the same point restores every point. */
  lemma MirroredTwice(pts: seq<Point>, dx: real, dy: real)
    ensures Mirrored(Mirrored(pts, dx, dy), 2.0 * dx, 2.0 * dy) == Translated(pts, dx, dy)
  {
    var twice := Mirrored(Mirrored(pts, dx, dy), 2.0 * dx, 2.0 * dy);
    assert forall i :: 0 <= i < |pts| ==> twice[i] == Translated(pts, dx, dy)[i];
  }

  // ---------------------------------------------------------------------------
  // Picking one path by area

  /** Whether a candidate of area `sarea` takes over from the incumbent. */
  predicate Replaces(pick: MinkowskiSumPick, incumbent: Option<real>, sarea: real)
  {
    incumbent.None? ||
    (pick == Largest && incumbent.value < sarea) ||
    (pick == Smallest && sarea > 0.0 && incumbent.value > sarea)
  }

  /** The index the selection loop ends with after scanning the given areas in order. */
  function Selected(areas: seq<real>, pick: MinkowskiSumPick): (r: Option<nat>)
    ensures r.None? <==> |areas| == 0
    ensures r.Some? ==> r.value < |areas|
  {
    if |areas| == 0 then Option.None
    else
      var n := |areas| - 1;
      var prev := Selected(areas[..n], pick);
      var incumbent := if prev.None? then Option.None else Some(areas[prev.value]);
      if Replaces(pick, incumbent, areas[n]) then Some(n) else prev
  }

  /** Largest picks the first of the largest areas. */
  lemma {:induction false} SelectedLargest(areas: seq<real>)
    requires |areas| > 0
    ensures forall k :: 0 <= k < |areas| ==> areas[k] <= areas[Selected(areas, Largest).value]
    ensures forall k :: 0 <= k < Selected(areas, Largest).value ==> areas[k] < areas[Selected(areas, Largest).value]
  {
    var n := |areas| - 1;
    if n > 0 {
      var front := areas[..n];
      SelectedLargest(front);
      assert forall k :: 0 <= k < n ==> areas[k] == front[k];
    }
  }

  /**
   * Smallest keeps the first candidate unless a positive area is smaller
   * than it, and then picks the first of the smallest positive areas; a
   * first candidate whose area is not positive is never replaced.
   */
  lemma {:induction false} SelectedSmallest(areas: seq<real>)
    requires |areas| > 0
    ensures Selected(areas, Smallest).value == 0 || areas[Selected(areas, Smallest).value] > 0.0
    ensures areas[0] <= 0.0 ==> Selected(areas, Smallest).value == 0
    ensures forall k :: 0 <= k < |areas| && areas[k] > 0.0 ==> areas[Selected(areas, Smallest).value] <= areas[k]
    ensures forall k :: 0 <= k < Selected(areas, Smallest).value && areas[k] > 0.0 ==>
      areas[Selected(areas, Smallest).value] < areas[k]
  {
    var n := |areas| - 1;
    if n > 0 {
      var front := areas[..n];
      SelectedSmallest(front);
      assert forall k :: 0 <= k < n ==> areas[k] == front[k];
    }
  }

  /** The areas the outer selection compares: the negated signed areas. */
  function OuterAreas(solution: seq<seq<Point>>, signedArea: seq<Point> -> real): (r: seq<real>)
    ensures |r| == |solution|
    ensures forall i :: 0 <= i < |solution| ==> r[i] == -signedArea(solution[i])
  {
    seq(|solution|, i requires 0 <= i < |solution| => -signedArea(solution[i]))
  }

  /** The areas the tree selection compares: the absolute areas. */
  function TreeAreas(solution: seq<seq<Point>>, signedArea: seq<Point> -> real): (r: seq<real>)
    ensures |r| == |solution|
    ensures forall i :: 0 <= i < |solution| ==> r[i] == Abs(signedArea(solution[i]))
  {
    seq(|solution|, i requires 0 <= i < |solution| => Abs(signedArea(solution[i])))
  }

  // ---------------------------------------------------------------------------
  // The outer NFP

  /**
   * What the private ClipperExecuteOuterNfp gives: the picked path moved
   * by the path's first vertex. With no candidate the selection stays null
   * and the translation fails; a non-empty pick fails on an empty path.
   */
  function OuterNfp(solution: seq<seq<Point>>, path: seq<Point>, pick: MinkowskiSumPick,
                    signedArea: seq<Point> -> real): (r: Result<Nfp>)
    ensures |solution| == 0 ==> r.Failure?
    ensures r.Success? ==> Selected(OuterAreas(solution, signedArea), pick).Some?
    ensures r.Success? && |path| > 0 ==>
      r.value == PathPolygon(Translated(solution[Selected(OuterAreas(solution, signedArea), pick).value], path[0].x, path[0].y))
    ensures r.Success? && |path| == 0 ==> r.value == PathPolygon([])
  {
    var i := Selected(OuterAreas(solution, signedArea), pick);
    if i.None? then Failure(NullReference)
    else if |path| > 0 then Success(PathPolygon(Translated(solution[i.value], path[0].x, path[0].y)))
    else if |solution[i.value]| > 0 then Failure(IndexOutOfRange)
    else Success(PathPolygon(solution[i.value]))
  }

  /** What the public ClipperExecuteOuterNfp gives: the outer NFP, closed. */
  function ClosedOuterNfp(engine: MinkowskiEngine, pattern: seq<Point>, path: seq<Point>, pick: MinkowskiSumPick): (r: Result<Nfp>)
    ensures r.Success? ==> IsClosed(r.value)
    ensures OuterNfp(engine.outerSum(pattern, path), path, pick, engine.signedArea).Failure? ==> r.Failure?
  {
    var o := OuterNfp(engine.outerSum(pattern, path), path, pick, engine.signedArea);
    if o.Failure? then Failure(o.error) else CloseOutline(o.value)
  }

  /** An empty solution has no outer NFP, whatever the pick. */
  lemma OuterNfpOfNothing(path: seq<Point>, pick: MinkowskiSumPick, signedArea: seq<Point> -> real)
    ensures OuterNfp([], path, pick, signedArea).Failure?
  {
  }

  // ---------------------------------------------------------------------------
  // The tree NFP

  /**
   * What NewMinkowskiSum builds before closing: the first path of the
   * largest absolute area as the outline and, unless only the biggest is
   * wanted, every other path as a hole in order; every point mirrored
   * through the origin and moved by the pattern's first vertex.
   */
  function TreeNfp(solution: seq<seq<Point>>, pattern: seq<Point>, takeOnlyBiggestArea: bool,
                   signedArea: seq<Point> -> real): (r: Result<Nfp>)
    ensures |solution| == 0 ==> r.Failure?
  {
    var i := Selected(TreeAreas(solution, signedArea), Largest);
    if i.None? then Failure(NullReference)
    else
      var holes := if takeOnlyBiggestArea then [] else Others(solution, i.value);
      if |pattern| == 0 then
        if |solution[i.value]| > 0 || SomeNonEmpty(holes) then Failure(NoElements)
        else Success(Blank(PlainPolygon).(points := solution[i.value], children := HolePolygons(holes, 0.0, 0.0)))
      else
        var o := pattern[0];
        Success(Blank(PlainPolygon).(points := Mirrored(solution[i.value], o.x, o.y), children := HolePolygons(holes, o.x, o.y)))
  }

  /** Whether any of the paths has a point (mirroring it then needs the pattern's first vertex). */
  predicate SomeNonEmpty(paths: seq<seq<Point>>)
  {
    exists j :: 0 <= j < |paths| && |paths[j]| > 0
  }

  /** The paths other than the one at `skip`, in order. */
  function Others(solution: seq<seq<Point>>, skip: nat): (r: seq<seq<Point>>)
    requires skip < |solution|
    ensures r == solution[..skip] + solution[skip + 1..]
  {
    solution[..skip] + solution[skip + 1..]
  }

  /** Each hole path as a polygon, mirrored and moved like the outline. */
  function HolePolygons(holes: seq<seq<Point>>, dx: real, dy: real): (r: seq<Nfp>)
    ensures |r| == |holes|
    ensures forall j :: 0 <= j < |holes| ==> r[j] == PathPolygon(Mirrored(holes[j], dx, dy))
  {
    seq(|holes|, j requires 0 <= j < |holes| => PathPolygon(Mirrored(holes[j], dx, dy)))
  }

  /**
   * The tree NFP's outline is the first path of the largest absolute area,
   * and it has one hole for every other path unless only the biggest is wanted.
   */
  lemma TreeNfpShape(solution: seq<seq<Point>>, pattern: seq<Point>, takeOnlyBiggestArea: bool,
                     signedArea: seq<Point> -> real)
    requires |solution| > 0 && |pattern| > 0
    ensures TreeNfp(solution, pattern, takeOnlyBiggestArea, signedArea).Success?
    ensures var r := TreeNfp(solution, pattern, takeOnlyBiggestArea, signedArea).value;
      var i := Selected(TreeAreas(solution, signedArea), Largest).value;
      r.points == Mirrored(solution[i], pattern[0].x, pattern[0].y) &&
      |r.children| == (if takeOnlyBiggestArea then 0 else |solution| - 1) &&
      (forall k :: 0 <= k < |solution| ==> Abs(signedArea(solution[k])) <= Abs(signedArea(solution[i]))) &&
      (forall k :: 0 <= k < i ==> Abs(signedArea(solution[k])) < Abs(signedArea(solution[i])))
  {
    SelectedLargest(TreeAreas(solution, signedArea));
  }

  // ---------------------------------------------------------------------------
  // The native-library key

  /** A polygon's coordinates as the flat list x0, y0, x1, y1, …. */
  function Coords(pts: seq<Point>): (r: seq<real>)
    ensures |r| == 2 * |pts|
  {
    if |pts| == 0 then [] else Coords(pts[..|pts| - 1]) + [pts[|pts| - 1].x, pts[|pts| - 1].y]
  }

  /** The holes' coordinates, hole after hole. */
  function HoleCoords(holes: seq<Nfp>): seq<real>
  {
    if |holes| == 0 then [] else HoleCoords(holes[..|holes| - 1]) + Coords(holes[|holes| - 1].points)
  }

  /** The cache key DllImportExecute builds for a path and a (copied) pattern. */
  function KeyOf(path: Nfp, b: Nfp): (k: MinkowskiKey)
    ensures k.aLength == 2 * |path.points| && k.bLength == 2 * |b.points|
    ensures k.aChildrenLength == |path.children| && |k.childLengths| == |path.children|
    ensures forall j :: 0 <= j < |path.children| ==> k.childLengths[j] == 2 * |path.children[j].points|
  {
    var a := Coords(path.points);
    var bb := Coords(b.points);
    MinkowskiKey(|a|, a, |path.children|,
      seq(|path.children|, j requires 0 <= j < |path.children| => 2 * |path.children[j].points|),
      HoleCoords(path.children), |bb|, bb)
  }

  /** Paths with the same coordinates, holes and pattern share a key. */
  lemma SameInputSameKey(path: Nfp, path': Nfp, b: Nfp, b': Nfp)
    requires path.points == path'.points && path.children == path'.children && b.points == b'.points
    ensures KeyOf(path, b) == KeyOf(path', b')
  {
  }

  // ---------------------------------------------------------------------------

  class MinkowskiSum {
    /** MinkowskiCache: native results by key. */
    var cache: map<MinkowskiKey, Nfp>
    const useMinkowskiCache: bool
    const state: NestState
    const engine: MinkowskiEngine

    /** `CreateInstance`: a service with its own empty cache. */
    constructor (useMinkowskiCache: bool, state: NestState, engine: MinkowskiEngine)
      ensures cache == map[] && this.useMinkowskiCache == useMinkowskiCache
      ensures this.state == state && this.engine == engine
    {
      cache := map[];
      this.useMinkowskiCache := useMinkowskiCache;
      this.state := state;
      this.engine := engine;
    }

    /**
     * The private ClipperExecuteOuterNfp: the selection loop keeps the
     * incumbent and its area, then the picked polygon is moved by the
     * path's first vertex.
     */
    method OuterNfpOf(pattern: seq<Point>, path: seq<Point>, pick: MinkowskiSumPick) returns (r: Result<Nfp>)
      ensures r == OuterNfp(engine.outerSum(pattern, path), path, pick, engine.signedArea)
    {
      var solution := engine.outerSum(pattern, path);
      ghost var areas := OuterAreas(solution, engine.signedArea);
      var clipperNfp: Option<seq<Point>> := Option.None;
      var largestArea: Option<real> := Option.None;
      ghost var chosen: Option<nat> := Option.None;
      for i := 0 to |solution|
        invariant chosen == Selected(areas[..i], pick)
        invariant chosen.None? <==> clipperNfp.None?
        invariant chosen.None? <==> largestArea.None?
        invariant chosen.Some? ==> chosen.value < i && clipperNfp.value == solution[chosen.value]
        invariant chosen.Some? ==> largestArea.value == areas[chosen.value]
      {
        assert areas[..i + 1][..i] == areas[..i];
        var sarea := -engine.signedArea(solution[i]);
        if largestArea.None? ||
           (pick == Largest && largestArea.value < sarea) ||
           (pick == Smallest && sarea > 0.0 && largestArea.value > sarea) {
          clipperNfp := Some(solution[i]);
          largestArea := Some(sarea);
          chosen := Some(i);
        }
      }
      assert areas[..|solution|] == areas;
      if clipperNfp.None? {
        return Failure(NullReference);
      }
      var pts := clipperNfp.value;
      if |pts| > 0 && |path| == 0 {
        return Failure(IndexOutOfRange);
      }
      for i := 0 to |pts|
        invariant |pts| == |clipperNfp.value|
        invariant forall k :: 0 <= k < i ==> pts[k] == Translated(clipperNfp.value, path[0].x, path[0].y)[k]
        invariant forall k :: i <= k < |pts| ==> pts[k] == clipperNfp.value[k]
      {
        pts := pts[i := pts[i].(x := pts[i].x + path[0].x, y := pts[i].y + path[0].y)];
      }
      if |path| > 0 {
        assert pts == Translated(clipperNfp.value, path[0].x, path[0].y);
      }
      return Success(PathPolygon(pts));
    }

    /** The public ClipperExecuteOuterNfp: the outer NFP, closed. */
    method ClipperExecuteOuterNfp(pattern: seq<Point>, path: seq<Point>, pick: MinkowskiSumPick) returns (r: Result<Nfp>)
        ensures r == ClosedOuterNfp(engine, pattern, path, pick)
    {
      var o := OuterNfpOf(pattern, path, pick);
      if o.Failure? {
        return Failure(o.error);
      }
      r := CloseOutline(o.value);
    }

    /**
     * NewMinkowskiSum: counts the call, refuses the hole-less variant, and
     * otherwise gives the tree NFP, closed, as a one-element array.
     */
    method NewMinkowskiSum(pattern: seq<Point>, path: Nfp, withChildren: WithChildren, takeOnlyBiggestArea: bool)
      returns (r: Result<seq<Nfp>>)
      modifies state`clipperCallCounter
      ensures state.clipperCallCounter == old(state.clipperCallCounter) + 1
      ensures withChildren == Excluded ==> r == Failure(NotImplemented)
      ensures withChildren == Included ==>
        var t := TreeNfp(engine.treeSum(pattern, path), pattern, takeOnlyBiggestArea, engine.signedArea);
        r == (if t.Failure? then Failure(t.error)
              else if CloseOutline(t.value).Failure? then Failure(CloseOutline(t.value).error)
              else Success([CloseOutline(t.value).value]))
    {
      state.IncrementClipperCallCounter();
      if withChildren == Excluded {
        return Failure(NotImplemented);
      }
      var solution := engine.treeSum(pattern, path);
      var t := TreeOf(solution, pattern, takeOnlyBiggestArea);
      if t.Failure? {
        return Failure(t.error);
      }
      var closed := CloseOutline(t.value);
      if closed.Failure? {
        return Failure(closed.error);
      }
      return Success([closed.value]);
    }

    /** The selection loop of NewMinkowskiSum: the first path of the largest absolute area, or -1. */
    method LargestIndex(solution: seq<seq<Point>>) returns (largestIndex: int)
      ensures -1 <= largestIndex < |solution|
      ensures largestIndex == -1 <==> |solution| == 0
      ensures largestIndex >= 0 ==> Selected(TreeAreas(solution, engine.signedArea), Largest) == Some(largestIndex)
    {
      ghost var areas := TreeAreas(solution, engine.signedArea);
      var largestArea: Option<real> := Option.None;
      largestIndex := -1;
      for i := 0 to |solution|
        invariant largestArea.None? <==> largestIndex == -1
        invariant largestIndex == -1 <==> Selected(areas[..i], Largest).None?
        invariant largestIndex >= 0 ==> largestIndex < i && Selected(areas[..i], Largest) == Some(largestIndex)
        invariant largestIndex >= 0 ==> largestArea.value == areas[largestIndex]
      {
        assert areas[..i + 1][..i] == areas[..i];
        var sarea := Abs(engine.signedArea(solution[i]));
        if largestArea.None? || largestArea.value < sarea {
          largestArea := Some(sarea);
          largestIndex := i;
        }
      }
      assert areas[..|solution|] == areas;
    }

    /** The hole loop of NewMinkowskiSum: every path but the outline, in order. */
    static method HolesOf(solution: seq<seq<Point>>, skip: nat) returns (holes: seq<seq<Point>>)
      requires skip < |solution|
      ensures holes == Others(solution, skip)
    {
      holes := [];
      for j := 0 to |solution|
        invariant holes == if j <= skip then solution[..j] else solution[..skip] + solution[skip + 1..j]
      {
        if j != skip {
          if j < skip {
            assert solution[..j + 1] == solution[..j] + [solution[j]];
          } else {
            assert solution[skip + 1..j + 1] == solution[skip + 1..j] + [solution[j]];
          }
          holes := holes + [solution[j]];
        }
      }
      assert solution[skip + 1..|solution|] == solution[skip + 1..];
    }

    /** The selection, hole and mirroring steps of NewMinkowskiSum. */
    method TreeOf(solution: seq<seq<Point>>, pattern: seq<Point>, takeOnlyBiggestArea: bool) returns (r: Result<Nfp>)
      ensures r == TreeNfp(solution, pattern, takeOnlyBiggestArea, engine.signedArea)
    {
      var largestIndex := LargestIndex(solution);
      if largestIndex < 0 {
        return Failure(NullReference);
      }
      var holes: seq<seq<Point>> := [];
      if !takeOnlyBiggestArea {
        holes := HolesOf(solution, largestIndex);
      }
      assert holes == if takeOnlyBiggestArea then [] else Others(solution, largestIndex);
      var outline := solution[largestIndex];
      if |pattern| == 0 {
        if |outline| > 0 || SomeNonEmpty(holes) {
          return Failure(NoElements);
        }
        return Success(Blank(PlainPolygon).(points := outline, children := HolePolygons(holes, 0.0, 0.0)));
      }
      var o := pattern[0];
      return Success(Blank(PlainPolygon).(points := Mirrored(outline, o.x, o.y), children := HolePolygons(holes, o.x, o.y)));
    }

    /**
     * DllImportExecute: a cached result is returned as a copy and the
     * library is not called; otherwise the library is called, the call is
     * counted, and the result is cached when caching is on. Either way one
     * polygon comes back, cleaned when that is asked for; the cache shares
     * the object that is cleaned, so a fresh entry is the cleaned polygon.
     */
    method DllImportExecute(path: Nfp, pattern: Nfp, cleaning: MinkowskiSumCleaning) returns (r: seq<Nfp>)
      modifies this`cache, state`dllCallCounter
      ensures var key := KeyOf(path, CopyOf(pattern, Included, PlainPolygon));
        var raw := if key in old(cache) then CopyOf(old(cache)[key], Included, PlainPolygon) else engine.native(key);
        |r| == 1 && r[0] == (if cleaning == Cleaned then engine.clean(raw) else raw) &&
        (key in old(cache) ==> cache == old(cache) && state.dllCallCounter == old(state.dllCallCounter)) &&
        (key !in old(cache) ==> (state.dllCallCounter == old(state.dllCallCounter) + 1 &&
          cache == if useMinkowskiCache then old(cache)[key := r[0]] else old(cache)))
    {
      var b := CopyOf(pattern, Included, PlainPolygon);
      var key := KeyOf(path, b);
      var ret: Nfp;
      var missed := key !in cache;
      if !missed {
        ret := CopyOf(cache[key], Included, PlainPolygon);
      } else {
        ret := engine.native(key);
        state.IncrementDllCallCounter();
      }
      if cleaning == Cleaned {
        ret := engine.clean(ret);
      }
      // A fresh result is cached as the very object that was then cleaned
      // in place, so the cache holds the cleaned polygon.
      if missed && useMinkowskiCache {
        cache := cache[key := ret];
      }
      return [ret];
    }
  }

  /**
   * With caching on, asking the native library twice for the same path and
   * pattern calls it once, and the second answer is a copy of the first.
   */
  method CachedSecondCall(m: MinkowskiSum, path: Nfp, pattern: Nfp)
    requires m.useMinkowskiCache && m.cache == map[]
    modifies m`cache, m.state`dllCallCounter
    ensures m.state.dllCallCounter == old(m.state.dllCallCounter) + 1
  {
    var first := m.DllImportExecute(path, pattern, Uncleaned);
    var second := m.DllImportExecute(path, pattern, Uncleaned);
    assert second[0] == CopyOf(first[0], Included, PlainPolygon);
  }
}
