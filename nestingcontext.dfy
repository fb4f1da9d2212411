/**
 * NestingContext: the parts and sheets of a nesting session, the best nest
 * shown so far and the iteration driver. Sheets are laid out left to right;
 * the best nest is written back onto the parts (sheet, position, order).
 * The polygon set and the sheet list hold values here: a polygon's position
 * in its list stands for the object's identity.
 */
module Context {
  import opened Wrappers
  import opened Numeric
  import opened Geometry
  import opened Results
  import opened RunState
  import opened Nesting
  import opened TopResults
  import opened Procreation
  import opened BackgroundRun

  // ---------------------------------------------------------------------------
  // Sheet layout

  /** The horizontal gap ReorderSheets leaves between consecutive sheets. */
  const Gap: real := 10.0

  /** The widths ReorderSheets adds up, one per sheet. */
  function SheetWidths(sheets: seq<Nfp>): (w: seq<real>)
    ensures |w| == |sheets|
  {
    seq(|sheets|, i requires 0 <= i < |sheets| => WidthCalculated(sheets[i]))
  }

  /** Where ReorderSheets puts sheet i: the widths of the sheets before it, each plus the gap. */
  function LayoutOffset(widths: seq<real>, i: nat): real
    requires i <= |widths|
  {
    if i == 0 then 0.0 else LayoutOffset(widths, i - 1) + widths[i - 1] + Gap
  }

  lemma {:induction false} LayoutDisjoint(widths: seq<real>, i: nat, j: nat)
    requires i < j <= |widths|
    requires forall k :: 0 <= k < |widths| ==> widths[k] >= 0.0
    ensures LayoutOffset(widths, i) + widths[i] + Gap <= LayoutOffset(widths, j)
    decreases j
  {
    if j > i + 1 {
      LayoutDisjoint(widths, i, j - 1);
    }
  }

  /**
   * The laid-out sheets never overlap: every sheet ends at least one gap to
   * the left of where any later sheet starts, and the first starts at 0.
   */
  lemma SheetsDisjoint(sheets: seq<Nfp>, i: nat, j: nat)
    requires i < j <= |sheets|
    ensures LayoutOffset(SheetWidths(sheets), 0) == 0.0
    ensures LayoutOffset(SheetWidths(sheets), i) + WidthCalculated(sheets[i]) + Gap <= LayoutOffset(SheetWidths(sheets), j)
  {
    var w := SheetWidths(sheets);
    forall k | 0 <= k < |w| ensures w[k] >= 0.0 {
      assert w[k] == WidthCalculated(sheets[k]);
    }
    LayoutDisjoint(w, i, j);
  }

  /** The layout depends on the outlines only: laying out sheets already laid out moves nothing. */
  lemma SheetWidthsIgnorePosition(sheets: seq<Nfp>, moved: seq<Nfp>)
    requires |moved| == |sheets|
    requires forall k :: 0 <= k < |sheets| ==> moved[k].points == sheets[k].points
    ensures SheetWidths(moved) == SheetWidths(sheets)
  {
    var a := SheetWidths(moved);
    var b := SheetWidths(sheets);
    forall k | 0 <= k < |sheets| ensures a[k] == b[k] {
      assert moved[k].points == sheets[k].points;
    }
  }

  /** The sheets with the first n moved to their layout positions. */
  function Relocated(sheets: seq<Nfp>, widths: seq<real>, n: nat): (r: seq<Nfp>)
    requires n <= |sheets| == |widths|
    ensures |r| == |sheets|
    ensures forall k :: 0 <= k < |sheets| ==>
      r[k] == if k < n then sheets[k].(x := LayoutOffset(widths, k), y := 0.0) else sheets[k]
  {
    seq(|sheets|, k requires 0 <= k < |sheets| =>
      if k < n then sheets[k].(x := LayoutOffset(widths, k), y := 0.0) else sheets[k])
  }

  lemma RelocateNext(sheets: seq<Nfp>, widths: seq<real>, n: nat)
    requires n < |sheets| == |widths|
    requires widths[n] == WidthCalculated(sheets[n])
    ensures Relocated(sheets, widths, n)[n] == sheets[n]
    ensures Relocated(sheets, widths, n)[n := sheets[n].(x := LayoutOffset(widths, n), y := 0.0)] == Relocated(sheets, widths, n + 1)
    ensures LayoutOffset(widths, n + 1) == LayoutOffset(widths, n) + WidthCalculated(sheets[n]) + Gap
  {
  }

  /** Moving a sheet does not change its width. */
  lemma WidthIgnoresPosition(p: Nfp, x: real, y: real)
    ensures WidthCalculated(p.(x := x, y := y)) == WidthCalculated(p)
  {
    assert p.(x := x, y := y).points == p.points;
  }

  // ---------------------------------------------------------------------------
  // Next free Source

  /** LINQ `Max(z => z.Source)` over a non-empty list. */
  function MaxSource(ps: seq<Nfp>): (m: int)
    requires |ps| > 0
    ensures forall i :: 0 <= i < |ps| ==> ps[i].source <= m
    ensures exists i :: 0 <= i < |ps| && ps[i].source == m
  {
    if |ps| == 1 then ps[0].source
    else
      var rest := MaxSource(ps[1..]);
      assert forall i :: 1 <= i < |ps| ==> ps[i] == ps[1..][i - 1];
      if ps[0].source >= rest then ps[0].source else rest
  }

  /**
   * GetNextSource / GetNextSheetSource: 0 for an empty list, otherwise one
   * more than the largest Source, so the result is above every Source and
   * the smallest such value that leaves no gap.
   */
  function NextSource(ps: seq<Nfp>): (r: int)
    ensures |ps| == 0 ==> r == 0
    ensures forall i :: 0 <= i < |ps| ==> ps[i].source < r
    ensures |ps| > 0 ==> exists i :: 0 <= i < |ps| && ps[i].source == r - 1
  {
    if |ps| == 0 then 0 else MaxSource(ps) + 1
  }

  /** Adding a polygon that takes the next Source moves the next Source on by exactly one. */
  lemma NextSourceAfterAdd(ps: seq<Nfp>, p: Nfp)
    requires p.source == NextSource(ps)
    ensures NextSource(ps + [p]) == p.source + 1
  {
    var qs := ps + [p];
    assert qs[|ps|] == p;
    assert forall i :: 0 <= i < |qs| ==> qs[i].source <= p.source by {
      forall i | 0 <= i < |qs| ensures qs[i].source <= p.source {
        if i < |ps| {
          assert qs[i] == ps[i];
        }
      }
    }
  }

  // ---------------------------------------------------------------------------
  // A rectangle part

  /** The polygon AddRectanglePart creates: a fresh polygon with the Source and the four corners (0,0), (w,0), (w,h), (0,h). */
  function RectanglePart(src: int, ww: int, hh: int): (r: Nfp)
    ensures r.points == [NewPoint(0.0, 0.0), NewPoint(ww as real, 0.0), NewPoint(ww as real, hh as real), NewPoint(0.0, hh as real)]
    ensures r == Blank(PlainPolygon).(source := src, points := r.points)
  {
    Blank(PlainPolygon).(source := src, points :=
      [NewPoint(0.0, 0.0), NewPoint(ww as real, 0.0), NewPoint(ww as real, hh as real), NewPoint(0.0, hh as real)])
  }

  /** A rectangle part with non-negative sides spans exactly w by h. */
  lemma RectanglePartExtent(src: int, ww: int, hh: int)
    requires ww >= 0 && hh >= 0
    ensures WidthCalculated(RectanglePart(src, ww, hh)) == ww as real
    ensures HeightCalculated(RectanglePart(src, ww, hh)) == hh as real
  {
    var p := RectanglePart(src, ww, hh);
    var xs := Xs(p.points);
    var ys := Ys(p.points);
    MinOfUnique(xs, 0.0, 0);
    MaxOfUnique(xs, ww as real, 1);
    MinOfUnique(ys, 0.0, 0);
    MaxOfUnique(ys, hh as real, 2);
  }

  // ---------------------------------------------------------------------------
  // Writing a nest back onto the parts

  /** LINQ `First(z => z.Id == id)`: the position of the first polygon with that Id, if any. */
  function FindById(ps: seq<Nfp>, id: int): (r: Option<nat>)
    ensures r.Some? ==> r.value < |ps| && ps[r.value].id == id && forall j :: 0 <= j < r.value ==> ps[j].id != id
    ensures r.None? ==> forall j :: 0 <= j < |ps| ==> ps[j].id != id
  {
    if |ps| == 0 then Option.None
    else if ps[0].id == id then Option.Some(0)
    else
      match FindById(ps[1..], id)
      case None => Option.None
      case Some(k) => Option.Some(k + 1)
  }

  /** The lookup depends on the Ids only. */
  lemma FindByIdSameIds(ps: seq<Nfp>, qs: seq<Nfp>, id: int)
    requires |ps| == |qs| && forall i :: 0 <= i < |ps| ==> ps[i].id == qs[i].id
    ensures FindById(ps, id) == FindById(qs, id)
  {
    var a := FindById(ps, id);
    var b := FindById(qs, id);
    if a.Some? && b.Some? {
      assert !(a.value < b.value) && !(b.value < a.value);
    }
  }

  /** Which placement a polygon took: the sheet, the part placement and its index on the sheet. */
  datatype Step = Step(sheet: Nfp, part: PartPlacement, order: nat)

  /**
   * The parts as the write-back leaves them so far, the positions placed
   * (in order, with repeats) and the step each placed position took last.
   */
  datatype Assignment = Assignment(polygons: seq<Nfp>, placed: seq<nat>, steps: map<nat, Step>)

  /** How far the write-back got: to the end, or to a lookup that found nothing (First throws). */
  datatype Pass = Done(a: Assignment) | Stuck(a: Assignment)

  /** What one placement does to its polygon. */
  function Applied(p: Nfp, st: Step): (r: Nfp)
    ensures r.sheet == Option.Some(st.sheet) && r.placementOrder == st.order as int
    ensures r.x == st.part.x + st.sheet.x && r.y == st.part.y + st.sheet.y
    ensures r == p.(sheet := r.sheet, x := r.x, y := r.y, placementOrder := r.placementOrder)
  {
    p.(sheet := Option.Some(st.sheet), x := st.part.x + st.sheet.x, y := st.part.y + st.sheet.y, placementOrder := st.order)
  }

  function Place(a: Assignment, m: nat, st: Step): Assignment
    requires m < |a.polygons|
  {
    Assignment(a.polygons[m := Applied(a.polygons[m], st)], a.placed + [m], a.steps[m := st])
  }

  /** The first n part placements of one sheet, written back in order. */
  function PlaceParts(a: Assignment, sheet: Nfp, pps: seq<PartPlacement>, n: nat): Pass
    requires n <= |pps|
  {
    if n == 0 then Done(a)
    else
      match PlaceParts(a, sheet, pps, n - 1)
      case Stuck(b) => Stuck(b)
      case Done(b) =>
        match FindById(b.polygons, pps[n - 1].id)
        case None => Stuck(b)
        case Some(m) => Done(Place(b, m, Step(sheet, pps[n - 1], n - 1)))
  }

  /** The first n used sheets, written back in order. */
  function PlaceSheets(a: Assignment, sheets: seq<Nfp>, used: seq<SheetPlacement>, n: nat): Pass
    requires n <= |used|
  {
    if n == 0 then Done(a)
    else
      match PlaceSheets(a, sheets, used, n - 1)
      case Stuck(b) => Stuck(b)
      case Done(b) =>
        match FindById(sheets, used[n - 1].sheet.id)
        case None => Stuck(b)
        case Some(s) => PlaceParts(b, sheets[s], used[n - 1].partPlacements, |used[n - 1].partPlacements|)
  }

  /** Every part with its Sheet cleared. */
  function Cleared(ps: seq<Nfp>): (r: seq<Nfp>)
    ensures |r| == |ps| && forall i :: 0 <= i < |ps| ==> r[i] == ps[i].(sheet := Option.None)
  {
    seq(|ps|, i requires 0 <= i < |ps| => ps[i].(sheet := Option.None))
  }

  /** The write-back of a nest's used sheets onto the parts. */
  function WriteBack(ps: seq<Nfp>, sheets: seq<Nfp>, used: seq<SheetPlacement>): Pass
  {
    PlaceSheets(Assignment(Cleared(ps), [], map[]), sheets, used, |used|)
  }

  /** The parts no placement reached go to (-1000, 0). */
  function MoveUnplaced(ps: seq<Nfp>, placed: seq<nat>): (r: seq<Nfp>)
    ensures |r| == |ps|
    ensures forall i :: 0 <= i < |ps| ==> r[i] == if i in placed then ps[i] else ps[i].(x := -1000.0, y := 0.0)
  {
    seq(|ps|, i requires 0 <= i < |ps| => if i in placed then ps[i] else ps[i].(x := -1000.0, y := 0.0))
  }

  /** The parts as AssignPlacement leaves them: after the whole write-back, or as far as it got. */
  function Assigned(ps: seq<Nfp>, sheets: seq<Nfp>, used: seq<SheetPlacement>): seq<Nfp>
  {
    match WriteBack(ps, sheets, used)
    case Done(a) => MoveUnplaced(a.polygons, a.placed)
    case Stuck(a) => a.polygons
  }

  /**
   * An assignment over the cleared parts `base`: a position is placed iff it
   * has a step, that step's part placement names the polygon's Id, and every
   * polygon is its base value with its last step applied, if any.
   */
  ghost predicate Consistent(base: seq<Nfp>, a: Assignment)
  {
    |a.polygons| == |base| &&
    (forall m :: m in a.placed <==> m in a.steps) &&
    (forall m :: m in a.steps ==> m < |base| && a.steps[m].part.id == base[m].id) &&
    (forall m :: 0 <= m < |base| ==> a.polygons[m] == if m in a.steps then Applied(base[m], a.steps[m]) else base[m])
  }

  lemma PlaceConsistent(base: seq<Nfp>, a: Assignment, m: nat, st: Step)
    requires Consistent(base, a) && m < |a.polygons| && st.part.id == base[m].id
    ensures Consistent(base, Place(a, m, st))
  {
    var b := Place(a, m, st);
    forall k | k in b.placed
      ensures k in b.steps
    {
      if k != m {
        assert k in a.placed;
      }
    }
    forall k | 0 <= k < |base|
      ensures b.polygons[k] == if k in b.steps then Applied(base[k], b.steps[k]) else base[k]
    {
      if k == m {
        assert a.polygons[m].id == base[m].id;
      }
    }
  }

  lemma {:induction false} PlacePartsConsistent(base: seq<Nfp>, a: Assignment, sheet: Nfp, pps: seq<PartPlacement>, n: nat)
    requires n <= |pps| && Consistent(base, a)
    ensures Consistent(base, PlaceParts(a, sheet, pps, n).a)
  {
    if n > 0 {
      PlacePartsConsistent(base, a, sheet, pps, n - 1);
      var prev := PlaceParts(a, sheet, pps, n - 1);
      if prev.Done? {
        var b := prev.a;
        var found := FindById(b.polygons, pps[n - 1].id);
        if found.Some? {
          assert b.polygons[found.value].id == base[found.value].id;
          PlaceConsistent(base, b, found.value, Step(sheet, pps[n - 1], n - 1));
        }
      }
    }
  }

  lemma {:induction false} PlaceSheetsConsistent(base: seq<Nfp>, a: Assignment, sheets: seq<Nfp>, used: seq<SheetPlacement>, n: nat)
    requires n <= |used| && Consistent(base, a)
    ensures Consistent(base, PlaceSheets(a, sheets, used, n).a)
  {
    if n > 0 {
      PlaceSheetsConsistent(base, a, sheets, used, n - 1);
      var prev := PlaceSheets(a, sheets, used, n - 1);
      if prev.Done? {
        var found := FindById(sheets, used[n - 1].sheet.id);
        if found.Some? {
          var pps := used[n - 1].partPlacements;
          PlacePartsConsistent(base, prev.a, sheets[found.value], pps, |pps|);
        }
      }
    }
  }

  /**
   * What AssignPlacement leaves when the write-back completes: every part
   * has its Sheet cleared and then, if a placement named it, the sheet of its
   * last placement, X and Y offset by that sheet's position and its index on
   * the sheet as PlacementOrder; every part no placement named is at
   * (-1000, 0) with no sheet. Nothing else about a part changes.
   */
  lemma AssignedParts(ps: seq<Nfp>, sheets: seq<Nfp>, used: seq<SheetPlacement>)
    requires WriteBack(ps, sheets, used).Done?
    ensures var a := WriteBack(ps, sheets, used).a;
      |Assigned(ps, sheets, used)| == |ps| &&
      (forall m :: m in a.steps ==>
         (m < |ps| && a.steps[m].part.id == ps[m].id && Assigned(ps, sheets, used)[m] == Applied(ps[m], a.steps[m]))) &&
      (forall m :: 0 <= m < |ps| && m !in a.steps ==>
         Assigned(ps, sheets, used)[m] == ps[m].(sheet := Option.None, x := -1000.0, y := 0.0))
  {
    var base := Cleared(ps);
    PlaceSheetsConsistent(base, Assignment(base, [], map[]), sheets, used, |used|);
  }

  /** While the write-back runs, the parts keep their Ids. */
  lemma ConsistentIds(base: seq<Nfp>, a: Assignment)
    requires Consistent(base, a)
    ensures forall i :: 0 <= i < |base| ==> a.polygons[i].id == base[i].id
  {
  }

  /** Every one of the first n part placements names the Id of some part. */
  predicate PartsKnown(ps: seq<Nfp>, pps: seq<PartPlacement>, n: nat)
    requires n <= |pps|
  {
    forall k :: 0 <= k < n ==> FindById(ps, pps[k].id).Some?
  }

  /** Every one of the first n used sheets names the Id of some sheet, and its part placements name parts. */
  predicate SheetsKnown(ps: seq<Nfp>, sheets: seq<Nfp>, used: seq<SheetPlacement>, n: nat)
    requires n <= |used|
  {
    forall s :: 0 <= s < n ==>
      FindById(sheets, used[s].sheet.id).Some? && PartsKnown(ps, used[s].partPlacements, |used[s].partPlacements|)
  }

  /**
   * The write-back completes exactly when every used sheet's Id is among the
   * sheets and every part placement's Id is among the parts; otherwise a
   * lookup throws.
   */
  lemma WriteBackDoneIff(ps: seq<Nfp>, sheets: seq<Nfp>, used: seq<SheetPlacement>)
    ensures WriteBack(ps, sheets, used).Done? <==> SheetsKnown(ps, sheets, used, |used|)
  {
    SheetsDoneIff(ps, Assignment(Cleared(ps), [], map[]), sheets, used, |used|);
  }

  /** Two part lists that agree position by position on the Ids. */
  predicate SameIds(ps: seq<Nfp>, qs: seq<Nfp>)
  {
    |ps| == |qs| && forall i :: 0 <= i < |ps| ==> ps[i].id == qs[i].id
  }

  lemma {:induction false} PlacePartsIds(ps: seq<Nfp>, a: Assignment, sheet: Nfp, pps: seq<PartPlacement>, n: nat)
    requires n <= |pps| && SameIds(ps, a.polygons)
    ensures SameIds(ps, PlaceParts(a, sheet, pps, n).a.polygons)
  {
    if n > 0 {
      PlacePartsIds(ps, a, sheet, pps, n - 1);
    }
  }

  lemma {:induction false} PartsDoneIff(ps: seq<Nfp>, a: Assignment, sheet: Nfp, pps: seq<PartPlacement>, n: nat)
    requires n <= |pps| && SameIds(ps, a.polygons)
    ensures PlaceParts(a, sheet, pps, n).Done? <==> PartsKnown(ps, pps, n)
  {
    if n > 0 {
      PartsDoneIff(ps, a, sheet, pps, n - 1);
      PlacePartsIds(ps, a, sheet, pps, n - 1);
      var prev := PlaceParts(a, sheet, pps, n - 1);
      FindByIdSameIds(prev.a.polygons, ps, pps[n - 1].id);
      PartsKnownSnoc(ps, pps, n);
      assert PlaceParts(a, sheet, pps, n).Done? <==> prev.Done? && FindById(prev.a.polygons, pps[n - 1].id).Some?;
    }
  }

  lemma PartsKnownSnoc(ps: seq<Nfp>, pps: seq<PartPlacement>, n: nat)
    requires 0 < n <= |pps|
    ensures PartsKnown(ps, pps, n) <==> PartsKnown(ps, pps, n - 1) && FindById(ps, pps[n - 1].id).Some?
  {
  }

  lemma {:induction false} PlaceSheetsIds(ps: seq<Nfp>, a: Assignment, sheets: seq<Nfp>, used: seq<SheetPlacement>, n: nat)
    requires n <= |used| && SameIds(ps, a.polygons)
    ensures SameIds(ps, PlaceSheets(a, sheets, used, n).a.polygons)
  {
    if n > 0 {
      PlaceSheetsIds(ps, a, sheets, used, n - 1);
      var prev := PlaceSheets(a, sheets, used, n - 1);
      var found := FindById(sheets, used[n - 1].sheet.id);
      if prev.Done? && found.Some? {
        PlacePartsIds(ps, prev.a, sheets[found.value], used[n - 1].partPlacements, |used[n - 1].partPlacements|);
      }
    }
  }

  lemma {:induction false} SheetsDoneIff(ps: seq<Nfp>, a: Assignment, sheets: seq<Nfp>, used: seq<SheetPlacement>, n: nat)
    requires n <= |used| && SameIds(ps, a.polygons)
    ensures PlaceSheets(a, sheets, used, n).Done? <==> SheetsKnown(ps, sheets, used, n)
  {
    if n > 0 {
      SheetsDoneIff(ps, a, sheets, used, n - 1);
      var prev := PlaceSheets(a, sheets, used, n - 1);
      PlaceSheetsIds(ps, a, sheets, used, n - 1);
      assert SameIds(ps, prev.a.polygons);
      var pps := used[n - 1].partPlacements;
      var found := FindById(sheets, used[n - 1].sheet.id);
      if prev.Done? && found.Some? {
        PartsDoneIff(ps, prev.a, sheets[found.value], pps, |pps|);
      }
      SheetsKnownSnoc(ps, sheets, used, n);
      assert PlaceSheets(a, sheets, used, n).Done? <==>
        prev.Done? && found.Some? && PlaceParts(prev.a, sheets[found.value], pps, |pps|).Done?;
    }
  }

  lemma SheetsKnownSnoc(ps: seq<Nfp>, sheets: seq<Nfp>, used: seq<SheetPlacement>, n: nat)
    requires 0 < n <= |used|
    ensures SheetsKnown(ps, sheets, used, n) <==>
      (SheetsKnown(ps, sheets, used, n - 1) && FindById(sheets, used[n - 1].sheet.id).Some? &&
       PartsKnown(ps, used[n - 1].partPlacements, |used[n - 1].partPlacements|))
  {
  }

  lemma {:induction false} PartsStuckStays(a: Assignment, sheet: Nfp, pps: seq<PartPlacement>, n: nat, m: nat)
    requires n <= m <= |pps| && PlaceParts(a, sheet, pps, n).Stuck?
    ensures PlaceParts(a, sheet, pps, m) == PlaceParts(a, sheet, pps, n)
    decreases m
  {
    if m > n {
      PartsStuckStays(a, sheet, pps, n, m - 1);
    }
  }

  lemma {:induction false} SheetsStuckStays(a: Assignment, sheets: seq<Nfp>, used: seq<SheetPlacement>, n: nat, m: nat)
    requires n <= m <= |used| && PlaceSheets(a, sheets, used, n).Stuck?
    ensures PlaceSheets(a, sheets, used, m) == PlaceSheets(a, sheets, used, n)
    decreases m
  {
    if m > n {
      SheetsStuckStays(a, sheets, used, n, m - 1);
    }
  }

  // ---------------------------------------------------------------------------
  // Comparing fitness values

  /** The IEEE `<` of two doubles: false whenever either is NaN. */
  predicate IeeeLess(a: Double, b: Double)
  {
    match (a, b)
    case (NaN, _) => false
    case (_, NaN) => false
    case (NegativeInfinity, NegativeInfinity) => false
    case (NegativeInfinity, _) => true
    case (_, NegativeInfinity) => false
    case (PositiveInfinity, _) => false
    case (Finite(x), Finite(y)) => x < y
    case (Finite(_), PositiveInfinity) => true
  }

  /** IEEE `<` is a strict order that NaN takes no part in. */
  lemma IeeeLessStrict(a: Double, b: Double, c: Double)
    ensures !IeeeLess(a, a)
    ensures IeeeLess(a, b) ==> !IeeeLess(b, a)
    ensures IeeeLess(a, b) && IeeeLess(b, c) ==> IeeeLess(a, c)
    ensures a.NaN? || b.NaN? ==> !IeeeLess(a, b)
    ensures a.Finite? && b.Finite? ==> (IeeeLess(a, b) <==> a.value < b.value)
  {
  }

  // ---------------------------------------------------------------------------
  // The context

  class NestingContext {
    /** The parts, in insertion order; each entry is a distinct polygon object. */
    var polygons: seq<Nfp>
    var sheets: seq<Nfp>
    /** The nest shown, if any. */
    var current: Option<NestOutcome>
    var isStopped: bool
    var nest: SvgNest?
    const state: NestState

    constructor (state: NestState)
      ensures this.state == state
      ensures polygons == [] && sheets == [] && current.None? && !isStopped && nest == null
    {
      this.state := state;
      polygons, sheets, current, isStopped, nest := [], [], Option.None, false, null;
    }

    /** ReorderSheets: sheet i moves to X = the widths of the sheets before it, each plus the gap, and Y = 0. */
    method ReorderSheets()
      modifies this`sheets
      ensures sheets == Relocated(old(sheets), SheetWidths(old(sheets)), |old(sheets)|)
    {
      var x := 0.0;
      var y := 0.0;
      ghost var before := sheets;
      ghost var widths := SheetWidths(sheets);
      for i := 0 to |sheets|
        invariant |sheets| == |before|
        invariant x == LayoutOffset(widths, i)
        invariant sheets == Relocated(before, widths, i)
      {
        WidthIgnoresPosition(sheets[i], x, y);
        RelocateNext(before, widths, i);
        sheets := sheets[i := sheets[i].(x := x, y := y)];
        x := x + WidthCalculated(sheets[i]) + Gap;
      }
    }

    /** GetNextSource: one past the largest part Source, or 0 without parts. */
    function GetNextSource(): (r: int)
      reads this
      ensures r == NextSource(polygons)
    {
      if |polygons| == 0 then 0 else MaxSource(polygons) + 1
    }

    /** GetNextSheetSource: one past the largest sheet Source, or 0 without sheets. */
    function GetNextSheetSource(): (r: int)
      reads this
      ensures r == NextSource(sheets)
    {
      if |sheets| == 0 then 0 else MaxSource(sheets) + 1
    }

    /** AddRectanglePart: a new w-by-h rectangle part with the given Source joins the parts. */
    method AddRectanglePart(src: int, ww: int := 50, hh: int := 80)
      modifies this`polygons
      ensures polygons == old(polygons) + [RectanglePart(src, ww, hh)]
    {
      var xx := 0;
      var yy := 0;
      var pl := new NoFitPolygon(PlainPolygon);
      pl.state := pl.state.(source := src);
      pl.AddPoint(NewPoint(xx as real, yy as real));
      pl.AddPoint(NewPoint((xx + ww) as real, yy as real));
      pl.AddPoint(NewPoint((xx + ww) as real, (yy + hh) as real));
      pl.AddPoint(NewPoint(xx as real, (yy + hh) as real));
      assert pl.state.points == RectanglePart(src, ww, hh).points;
      polygons := polygons + [pl.state];
    }

    /**
     * AssignPlacement: the nest becomes the current one and is written back
     * onto the parts. `ok` is false where a sheet or part lookup throws,
     * leaving the parts as far as the write-back got.
     */
    method AssignPlacement(plcpr: NestOutcome) returns (ok: bool)
      modifies this`current, this`polygons
      ensures current == Option.Some(plcpr)
      ensures ok <==> WriteBack(old(polygons), sheets, plcpr.result.usedSheets).Done?
      ensures polygons == Assigned(old(polygons), sheets, plcpr.result.usedSheets)
    {
      current := Option.Some(plcpr);
      ClearSheets();
      var placed;
      ghost var steps;
      ok, placed, steps := PlaceUsedSheets(plcpr.result.usedSheets);
      if ok {
        MoveUnplacedParts(placed);
      }
    }

    /** The outer loop of AssignPlacement: each used sheet's part placements, written back in order. */
    method PlaceUsedSheets(used: seq<SheetPlacement>) returns (ok: bool, placed: seq<nat>, ghost steps: map<nat, Step>)
      modifies this`polygons
      ensures ok ==> PlaceSheets(Assignment(old(polygons), [], map[]), sheets, used, |used|) == Done(Assignment(polygons, placed, steps))
      ensures !ok ==> PlaceSheets(Assignment(old(polygons), [], map[]), sheets, used, |used|) == Stuck(Assignment(polygons, placed, steps))
    {
      ghost var start := Assignment(polygons, [], map[]);
      placed, steps := [], map[];
      for s := 0 to |used|
        invariant PlaceSheets(start, sheets, used, s) == Done(Assignment(polygons, placed, steps))
      {
        ok, placed, steps := PlaceUsedSheet(start, used, s, placed, steps);
        if !ok {
          SheetsStuckStays(start, sheets, used, s + 1, |used|);
          return;
        }
      }
      ok := true;
    }

    /** One turn of the outer loop of AssignPlacement: find the used sheet, then place its parts. */
    method PlaceUsedSheet(ghost start: Assignment, used: seq<SheetPlacement>, s: nat, placed0: seq<nat>, ghost steps0: map<nat, Step>)
      returns (ok: bool, placed: seq<nat>, ghost steps: map<nat, Step>)
      requires s < |used| && PlaceSheets(start, sheets, used, s) == Done(Assignment(polygons, placed0, steps0))
      modifies this`polygons
      ensures ok ==> PlaceSheets(start, sheets, used, s + 1) == Done(Assignment(polygons, placed, steps))
      ensures !ok ==> PlaceSheets(start, sheets, used, s + 1) == Stuck(Assignment(polygons, placed, steps))
    {
      var sheetAt := FindById(sheets, used[s].sheet.id);
      if sheetAt.None? {
        return false, placed0, steps0;
      }
      ghost var before := Assignment(polygons, placed0, steps0);
      ok, placed, steps := PlaceSheetParts(before, sheets[sheetAt.value], used[s].partPlacements, placed0);
    }

    /** The first loop of AssignPlacement: no part is on a sheet. */
    method ClearSheets()
      modifies this`polygons
      ensures polygons == Cleared(old(polygons))
    {
      for i := 0 to |polygons|
        invariant |polygons| == |old(polygons)|
        invariant forall k :: 0 <= k < i ==> polygons[k] == old(polygons)[k].(sheet := Option.None)
        invariant forall k :: i <= k < |polygons| ==> polygons[k] == old(polygons)[k]
      {
        polygons := polygons[i := polygons[i].(sheet := Option.None)];
      }
    }

    /** The inner loop of AssignPlacement: one sheet's part placements, written back in order. */
    method PlaceSheetParts(ghost a: Assignment, sheet: Nfp, pps: seq<PartPlacement>, placed0: seq<nat>)
      returns (ok: bool, placed: seq<nat>, ghost steps: map<nat, Step>)
      requires a.polygons == polygons && a.placed == placed0
      modifies this`polygons
      ensures ok ==> PlaceParts(a, sheet, pps, |pps|) == Done(Assignment(polygons, placed, steps))
      ensures !ok ==> PlaceParts(a, sheet, pps, |pps|) == Stuck(Assignment(polygons, placed, steps))
    {
      placed, steps := placed0, a.steps;
      for k := 0 to |pps|
        invariant PlaceParts(a, sheet, pps, k) == Done(Assignment(polygons, placed, steps))
      {
        ok, placed, steps := PlacePart(a, sheet, pps, k, placed, steps);
        if !ok {
          PartsStuckStays(a, sheet, pps, k + 1, |pps|);
          return;
        }
      }
      ok := true;
    }

    /** One turn of the inner loop of AssignPlacement: the part the placement names takes its sheet, position and order. */
    method PlacePart(ghost a: Assignment, sheet: Nfp, pps: seq<PartPlacement>, k: nat, placed0: seq<nat>, ghost steps0: map<nat, Step>)
      returns (ok: bool, placed: seq<nat>, ghost steps: map<nat, Step>)
      requires k < |pps| && PlaceParts(a, sheet, pps, k) == Done(Assignment(polygons, placed0, steps0))
      modifies this`polygons
      ensures ok ==> PlaceParts(a, sheet, pps, k + 1) == Done(Assignment(polygons, placed, steps))
      ensures !ok ==> PlaceParts(a, sheet, pps, k + 1) == Stuck(Assignment(polygons, placed, steps))
    {
      var polyAt := FindById(polygons, pps[k].id);
      if polyAt.None? {
        return false, placed0, steps0;
      }
      var m := polyAt.value;
      placed := placed0 + [m];
      steps := steps0[m := Step(sheet, pps[k], k)];
      polygons := polygons[m := polygons[m].(sheet := Option.Some(sheet), x := pps[k].x + sheet.x,
                                              y := pps[k].y + sheet.y, placementOrder := k)];
      ok := true;
    }

    /** The last loop of AssignPlacement: the parts not placed go to (-1000, 0). */
    method MoveUnplacedParts(placed: seq<nat>)
      modifies this`polygons
      ensures polygons == MoveUnplaced(old(polygons), placed)
    {
      for i := 0 to |polygons|
        invariant |polygons| == |old(polygons)|
        invariant forall k :: 0 <= k < i ==> polygons[k] == MoveUnplaced(old(polygons), placed)[k]
        invariant forall k :: i <= k < |polygons| ==> polygons[k] == old(polygons)[k]
      {
        if i !in placed {
          polygons := polygons[i := polygons[i].(x := -1000.0, y := 0.0)];
        }
      }
    }

    /** InternalReset: the run statistics and top results are cleared and no nest is shown. */
    method InternalReset()
      requires state.Valid()
      modifies this`current, state`nestCount, state`totalNestTime, state`totalPlacementTime, state`lastNestTime,
        state`lastPlacementTime, state`generations, state`population, state`iterations,
        state`dllCallCounter, state`clipperCallCounter, state`isErrored, state`nfpPairCachePercentCached,
        state.topNestResults`items
      ensures current.None?
      ensures state.Valid() && state.topNestResults.items == [] && state.TimesCleared() && state.CountersCleared()
    {
      state.Reset();
      current := Option.None;
    }

    /** Reset: no parts, no sheets, and everything InternalReset clears. */
    method Reset()
      requires state.Valid()
      modifies this`polygons, this`sheets, this`current, state`nestCount, state`totalNestTime,
        state`totalPlacementTime, state`lastNestTime, state`lastPlacementTime, state`generations,
        state`population, state`iterations, state`dllCallCounter, state`clipperCallCounter,
        state`isErrored, state`nfpPairCachePercentCached, state.topNestResults`items
      ensures polygons == [] && sheets == [] && current.None?
      ensures state.Valid() && state.topNestResults.items == [] && state.TimesCleared() && state.CountersCleared()
    {
      polygons := [];
      sheets := [];
      InternalReset();
    }

    /** StopNest: the context is stopped, and so is its nest if it has one. */
    method StopNest()
      modifies this`isStopped
      modifies if nest == null then {} else {nest}
      ensures isStopped
      ensures nest != null ==> nest.isStopped
    {
      isStopped := true;
      if nest != null {
        nest.Stop();
      }
    }

    /** The first half of NestIterate: stop with a stopped nest, or launch the workers of a running one. */
    method Launch(useParallel: bool, draws: seq<ProcreationDraw>, timingOf: int -> Timing) returns (launched: Result<()>)
      requires nest != null ==> nest.Valid() && nest.state == state
      requires nest != null ==> forall i :: 0 <= i < |draws| ==>
        |draws[i].first| == |nest.procreant.adam| && |draws[i].second| == |nest.procreant.adam|
      modifies this`isStopped
      modifies if nest == null then {} else {nest, nest.procreant, state, state.topNestResults, nest.cache}
      modifies if nest == null then {} else set c | c in nest.procreant.adam
      ensures nest != null ==> nest.Valid()
      ensures state.iterations == old(state.iterations)
      ensures old(isStopped) ==> isStopped && launched.Success?
      ensures !old(isStopped) && nest == null ==> launched.Failure?
      ensures !old(isStopped) && nest != null && old(nest.isStopped) ==> isStopped && nest.isStopped && launched.Success?
    {
      launched := Result.Success(());
      if !isStopped {
        if nest == null {
          launched := Result.Failure(NullReference);
        } else if nest.isStopped {
          StopNest();
        } else {
          launched := nest.LaunchWorkers(useParallel, draws, timingOf);
        }
      }
    }

    /**
     * NestIterate. Unless the context is stopped, a stopped nest stops the
     * context and a running one launches its workers (a missing nest
     * throws). Then the best top result replaces the shown nest when there is
     * none or it has strictly lower fitness, and the iteration is counted.
     * Any exception skips the rest and raises the error flag if it was not
     * already raised. `ok` is false where the source catches an exception.
     */
    method NestIterate(useParallel: bool, draws: seq<ProcreationDraw>, timingOf: int -> Timing) returns (ok: bool)
      requires nest != null ==> nest.Valid() && nest.state == state
      requires nest != null ==> forall i :: 0 <= i < |draws| ==>
        |draws[i].first| == |nest.procreant.adam| && |draws[i].second| == |nest.procreant.adam|
      modifies this`current, this`polygons, this`isStopped, state`iterations, state`isErrored
      modifies if nest == null then {} else {nest, nest.procreant, state, state.topNestResults, nest.cache}
      modifies if nest == null then {} else set c | c in nest.procreant.adam
      ensures nest != null ==> nest.Valid()
      ensures sheets == old(sheets) && nest == old(nest)
      ensures old(isStopped) ==> isStopped
      ensures !old(isStopped) && nest == null ==> !ok
      ensures !old(isStopped) && nest != null && old(nest.isStopped) ==> isStopped && nest.isStopped
      ensures ok ==> state.iterations == old(state.iterations) + 1
      ensures !ok ==> state.iterations == old(state.iterations) && state.isErrored
      ensures ok && Improves(state.topNestResults.Top(), old(current)) ==>
        current == state.topNestResults.Top() &&
        polygons == Assigned(old(polygons), sheets, current.value.result.usedSheets)
      ensures ok && !Improves(state.topNestResults.Top(), old(current)) ==>
        current == old(current) && polygons == old(polygons)
      ensures current != old(current) ==> current == state.topNestResults.Top() && Improves(current, old(current))
    {
      var launched := Launch(useParallel, draws, timingOf);
      ok := launched.Success?;
      var top := state.topNestResults.Top();
      ghost var shown, parts := current, polygons;
      var improves := Improves(top, current);
      if ok && improves {
        ok := AssignPlacement(top.value);
      }
      Count(ok);
      assert top == state.topNestResults.Top();
      assert !improves ==> current == shown && polygons == parts;
    }

    /** The end of NestIterate: count the iteration, or raise the error flag. */
    method Count(ok: bool)
      modifies state`iterations, state`isErrored
      ensures ok ==> state.iterations == old(state.iterations) + 1
      ensures !ok ==> state.iterations == old(state.iterations) && state.isErrored
    {
      if ok {
        state.IncrementIterations();
      } else if !state.isErrored {
        state.SetIsErrored();
      }
    }
  }

  /** NestIterate's test: there is a top result, and either nothing is shown or the top is strictly fitter. */
  predicate Improves(top: Option<NestOutcome>, current: Option<NestOutcome>)
  {
    top.Some? && (current.None? || IeeeLess(top.value.fitness, current.value.fitness))
  }

  /** The shown nest only ever gets strictly fitter, and once a NaN is shown it is never replaced. */
  lemma ImprovesStrictly(top: Option<NestOutcome>, current: Option<NestOutcome>)
    ensures Improves(top, current) && current.Some? ==>
      top.value.fitness != current.value.fitness && !IeeeLess(current.value.fitness, top.value.fitness)
    ensures current.Some? && current.value.fitness.NaN? ==> !Improves(top, current)
    ensures top.Some? && current.None? ==> Improves(top, current)
  {
  }
}
