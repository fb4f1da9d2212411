/**
 * Polygon values (NoFitPolygon, Sheet, RectangleSheet) and the operations the
 * polygon class offers: the Rotation setter, appending and replacing points,
 * shifting, slicing, closing, bounds, the clone family and structural equality.
 * Trigonometry and polygon area belong to the geometry engine and are
 * parameters here.
 */
module Geometry {
  import opened Wrappers
  import opened Numeric

  /** A vertex with its two flags. */
  datatype Point = Point(x: real, y: real, exact: bool, marked: bool)

  /** `new SvgPoint(x, y)`: exact by default, not marked. */
  function NewPoint(x: real, y: real): (p: Point)
    ensures p.x == x && p.y == y && p.exact && !p.marked
  {
    Point(x, y, true, false)
  }

  /** `new SvgPoint(x, y) { Exact = exact }`. */
  function ExactPoint(x: real, y: real, exact: bool): (p: Point)
    ensures p.x == x && p.y == y && p.exact == exact && !p.marked
  {
    Point(x, y, exact, false)
  }

  datatype AnglesEnum = None | AsPreviewed | Rotate90

  datatype WithChildren = Included | Excluded

  /** The runtime class of a polygon object. */
  datatype Kind = PlainPolygon | PlainSheet | RectangleSheet | ArbitrarySheet

  /**
   * A polygon: its outline, its holes (children) and the metadata the nester
   * attaches to it. `sheet` is the sheet a placed part was assigned to.
   */
  datatype Nfp = Nfp(
    points: seq<Point>,
    children: seq<Nfp>,
    id: int,
    source: int,
    name: string,
    rotation: real,
    placementOrder: int,
    strictAngle: AnglesEnum,
    isPriority: bool,
    x: real,
    y: real,
    offsetX: Option<real>,
    offsetY: Option<real>,
    sheet: Option<Nfp>,
    kind: Kind)
  {
    predicate IsSheet() { kind != PlainPolygon }
  }

  /** A polygon to be nested and how many copies of it are wanted. */
  datatype NestItem = NestItem(polygon: Nfp, quantity: int)

  /** The runtime class a clone gets: every sheet kind is cloned as a plain sheet. */
  function CloneKind(k: Kind): (r: Kind)
    ensures r == PlainPolygon <==> k == PlainPolygon
  {
    if k == PlainPolygon then PlainPolygon else PlainSheet
  }

  /**
   * A freshly constructed polygon: no points, no children, Id 0, Source -1,
   * PlacementOrder -1, empty name. The default StrictAngle is taken to be None.
   */
  function Blank(kind: Kind): (r: Nfp)
    ensures r.points == [] && r.children == []
    ensures r.id == 0 && r.source == -1 && r.placementOrder == -1 && r.rotation == 0.0
    ensures r.name == "" && !r.isPriority && r.sheet.None? && r.kind == kind
  {
    Nfp([], [], 0, -1, "", 0.0, -1, AnglesEnum.None, false, 0.0, 0.0, Option.None, Option.None, Option.None, kind)
  }

  // ---------------------------------------------------------------------------
  // Rotation setter

  const FullTurn: real := 360.0

  /** The Rotation setter stores `value % 360` with C#'s sign-preserving remainder. */
  function NormaliseRotation(value: real): (r: real)
    ensures -FullTurn < r < FullTurn
    ensures value >= 0.0 ==> r >= 0.0
    ensures value <= 0.0 ==> r <= 0.0
    ensures IsMultipleOf(value - r, FullTurn)
  {
    CsRemainder(value, FullTurn)
  }

  /** Storing an already stored rotation again changes nothing. */
  lemma NormaliseRotationIdempotent(value: real)
    ensures NormaliseRotation(NormaliseRotation(value)) == NormaliseRotation(value)
  {
  }

  /** `p.Rotation = value`. */
  function WithRotation(p: Nfp, value: real): (r: Nfp)
    ensures r.rotation == NormaliseRotation(value)
    ensures r == p.(rotation := r.rotation)
  {
    p.(rotation := NormaliseRotation(value))
  }

  // ---------------------------------------------------------------------------
  // Points

  /** AddPoint: one point appended at the end, earlier points untouched. */
  function AppendPoint(p: Nfp, pt: Point): (r: Nfp)
    ensures |r.points| == |p.points| + 1
    ensures r.points[..|p.points|] == p.points && r.points[|p.points|] == pt
    ensures r == p.(points := r.points)
  {
    p.(points := p.points + [pt])
  }

  /** ReplacePoints(INfp): the outline and, child by child, the holes' outlines are taken from `replacement`. */
  function ReplaceTree(p: Nfp, replacement: Nfp): (r: Result<Nfp>)
    ensures r.Failure? <==> !TreeFits(p, replacement)
    ensures r.Success? ==> r.value.points == replacement.points && |r.value.children| == |p.children|
    ensures r.Success? ==> r.value == p.(points := replacement.points, children := r.value.children)
    decreases p
  {
    if !TreeFits(p, replacement) then Failure("Index was out of range")
    else
      Success(p.(points := replacement.points,
                 children := seq(|p.children|, i requires 0 <= i < |p.children| && TreeFits(p, replacement) =>
                   ReplaceTree(p.children[i], replacement.children[i]).value)))
  }

  /** Every child of `p` has a counterpart, at every depth, in `replacement`. */
  predicate TreeFits(p: Nfp, replacement: Nfp)
    decreases p
  {
    |p.children| <= |replacement.children| &&
    forall i :: 0 <= i < |p.children| ==> TreeFits(p.children[i], replacement.children[i])
  }

  // ---------------------------------------------------------------------------
  // Bounds

  function Xs(pts: seq<Point>): (r: seq<real>)
    ensures |r| == |pts| && forall i :: 0 <= i < |pts| ==> r[i] == pts[i].x
  {
    seq(|pts|, i requires 0 <= i < |pts| => pts[i].x)
  }

  function Ys(pts: seq<Point>): (r: seq<real>)
    ensures |r| == |pts| && forall i :: 0 <= i < |pts| ==> r[i] == pts[i].y
  {
    seq(|pts|, i requires 0 <= i < |pts| => pts[i].y)
  }

  /** The largest element: no element exceeds it, and some element equals it. */
  function MaxOf(s: seq<real>): (r: real)
    requires |s| > 0
    ensures forall i :: 0 <= i < |s| ==> s[i] <= r
    ensures exists i :: 0 <= i < |s| && s[i] == r
  {
    if |s| == 1 then s[0] else Max(MaxOf(s[..|s| - 1]), s[|s| - 1])
  }

  /** The smallest element: no element is below it, and some element equals it. */
  function MinOf(s: seq<real>): (r: real)
    requires |s| > 0
    ensures forall i :: 0 <= i < |s| ==> r <= s[i]
    ensures exists i :: 0 <= i < |s| && s[i] == r
  {
    if |s| == 1 then s[0] else Min(MinOf(s[..|s| - 1]), s[|s| - 1])
  }

  /** A value that bounds a sequence from below and occurs in it is its minimum. */
  lemma MinOfUnique(s: seq<real>, v: real, k: nat)
    requires k < |s| && s[k] == v
    requires forall i :: 0 <= i < |s| ==> v <= s[i]
    ensures MinOf(s) == v
  {
  }

  function MaxX(p: Nfp): real { if |p.points| == 0 then 0.0 else MaxOf(Xs(p.points)) }
  function MinX(p: Nfp): real { if |p.points| == 0 then 0.0 else MinOf(Xs(p.points)) }
  function MaxY(p: Nfp): real { if |p.points| == 0 then 0.0 else MaxOf(Ys(p.points)) }
  function MinY(p: Nfp): real { if |p.points| == 0 then 0.0 else MinOf(Ys(p.points)) }

  /** WidthCalculated: the horizontal extent, never negative, 0 for an empty outline. */
  function WidthCalculated(p: Nfp): (r: real)
    ensures r >= 0.0
    ensures |p.points| == 0 ==> r == 0.0
    ensures forall i :: 0 <= i < |p.points| ==> MinX(p) <= p.points[i].x <= MaxX(p)
  {
    if |p.points| == 0 then 0.0 else MaxX(p) - MinX(p)
  }

  /** HeightCalculated: the vertical extent, never negative, 0 for an empty outline. */
  function HeightCalculated(p: Nfp): (r: real)
    ensures r >= 0.0
    ensures |p.points| == 0 ==> r == 0.0
    ensures forall i :: 0 <= i < |p.points| ==> MinY(p) <= p.points[i].y <= MaxY(p)
  {
    if |p.points| == 0 then 0.0 else MaxY(p) - MinY(p)
  }

  /** Area = |signed area| of the outline; NetArea subtracts the holes' areas. */
  function Area(p: Nfp, signedArea: seq<Point> -> real): (r: real)
    ensures r >= 0.0
  {
    Abs(signedArea(p.points))
  }

  function NetArea(p: Nfp, signedArea: seq<Point> -> real): real
  {
    Area(p, signedArea) - ChildrenArea(p.children, signedArea)
  }

  function ChildrenArea(cs: seq<Nfp>, signedArea: seq<Point> -> real): (r: real)
    ensures r >= 0.0
  {
    if cs == [] then 0.0 else ChildrenArea(cs[..|cs| - 1], signedArea) + Area(cs[|cs| - 1], signedArea)
  }

  // ---------------------------------------------------------------------------
  // Shift, slice

  function ShiftPoints(pts: seq<Point>, dx: real, dy: real): (r: seq<Point>)
    ensures |r| == |pts|
    ensures forall i :: 0 <= i < |pts| ==> r[i] == ExactPoint(pts[i].x + dx, pts[i].y + dy, pts[i].exact)
  {
    seq(|pts|, i requires 0 <= i < |pts| => ExactPoint(pts[i].x + dx, pts[i].y + dy, pts[i].exact))
  }

  /**
   * Shift(x, y): a new plain polygon translated by (x, y), holes included.
   * Id, Name, Rotation, Source, PlacementOrder and StrictAngle are copied;
   * IsPriority, X, Y and Sheet are not.
   */
  function Shift(p: Nfp, dx: real, dy: real): (r: Nfp)
    ensures |r.points| == |p.points| && |r.children| == |p.children|
    ensures forall i :: 0 <= i < |p.points| ==>
      r.points[i].x == p.points[i].x + dx && r.points[i].y == p.points[i].y + dy && r.points[i].exact == p.points[i].exact
    ensures forall j :: 0 <= j < |p.children| ==> r.children[j] == Shift(p.children[j], dx, dy)
    ensures r.id == p.id && r.name == p.name && r.source == p.source
    ensures r.rotation == NormaliseRotation(p.rotation)
    ensures r.placementOrder == p.placementOrder && r.strictAngle == p.strictAngle
    ensures !r.isPriority && r.kind == PlainPolygon
    decreases p
  {
    Blank(PlainPolygon).(
      id := p.id, name := p.name, rotation := NormaliseRotation(p.rotation), source := p.source,
      placementOrder := p.placementOrder, strictAngle := p.strictAngle,
      points := ShiftPoints(p.points, dx, dy),
      children := seq(|p.children|, j requires 0 <= j < |p.children| => Shift(p.children[j], dx, dy)))
  }

  /** Two shifts in a row move every vertex, at every depth, by the sum of the offsets. */
  lemma {:induction false} ShiftTwice(p: Nfp, dx1: real, dy1: real, dx2: real, dy2: real)
    ensures Shift(Shift(p, dx1, dy1), dx2, dy2) == Shift(p, dx1 + dx2, dy1 + dy2)
    decreases p
  {
    var lhs := Shift(Shift(p, dx1, dy1), dx2, dy2);
    var rhs := Shift(p, dx1 + dx2, dy1 + dy2);
    forall j | 0 <= j < |p.children|
      ensures lhs.children[j] == rhs.children[j]
    {
      ShiftTwice(p.children[j], dx1, dy1, dx2, dy2);
    }
    assert lhs.children == rhs.children;
    assert lhs.points == rhs.points;
  }

  /** ShiftToOrigin: Shift(-MinX, -MinY). */
  function ShiftToOrigin(p: Nfp): (r: Nfp)
    ensures MinX(r) == 0.0 && MinY(r) == 0.0
    ensures |r.points| == |p.points|
  {
    var r := Shift(p, -MinX(p), -MinY(p));
    if |p.points| == 0 then r
    else
      ShiftedMinimum(Xs(p.points), Xs(r.points), -MinX(p));
      ShiftedMinimum(Ys(p.points), Ys(r.points), -MinY(p));
      r
  }

  lemma ShiftedMinimum(s: seq<real>, t: seq<real>, d: real)
    requires |s| == |t| > 0
    requires forall i :: 0 <= i < |s| ==> t[i] == s[i] + d
    ensures MinOf(t) == MinOf(s) + d
  {
    var m := MinOf(s);
    var k :| 0 <= k < |s| && s[k] == m;
    MinOfUnique(t, m + d, k);
  }

  /**
   * Slice(v): a new plain polygon holding copies of points v..Length-1 with
   * default flags and metadata and no holes. A negative v indexes out of range.
   */
  function Slice(p: Nfp, v: int): (r: Result<Nfp>)
    ensures r.Failure? <==> v < 0
    ensures r.Success? ==> r.value.children == [] && r.value == Blank(PlainPolygon).(points := r.value.points)
    ensures r.Success? ==> |r.value.points| == if v >= |p.points| then 0 else |p.points| - v
    ensures r.Success? ==> forall i :: 0 <= i < |r.value.points| ==>
      r.value.points[i] == NewPoint(p.points[v + i].x, p.points[v + i].y)
  {
    if v < 0 then Failure("Index was outside the bounds of the array")
    else if v >= |p.points| then Success(Blank(PlainPolygon))
    else
      Success(Blank(PlainPolygon).(points :=
        seq(|p.points| - v, i requires 0 <= i < |p.points| - v => NewPoint(p.points[v + i].x, p.points[v + i].y))))
  }

  // ---------------------------------------------------------------------------
  // Closing

  const CloseTolerance: real := 0.0000001

  predicate Near(a: Point, b: Point)
  {
    Abs(a.x - b.x) < CloseTolerance && Abs(a.y - b.y) < CloseTolerance
  }

  /**
   * IsClosed: false when empty; true when the first and last points nearly
   * coincide, or when any two consecutive points do.
   */
  predicate IsClosed(p: Nfp)
  {
    |p.points| > 0 &&
    (Near(p.points[0], p.points[|p.points| - 1]) ||
     exists i :: 1 <= i < |p.points| && Near(p.points[i - 1], p.points[i]))
  }

  /**
   * EnsureIsClosed: an outline that is not closed gets its first point appended.
   * On an empty outline taking the first point throws.
   */
  function CloseOutline(p: Nfp): (r: Result<Nfp>)
    ensures r.Failure? <==> |p.points| == 0
    ensures r.Success? ==> IsClosed(r.value)
    ensures r.Success? ==> |p.points| <= |r.value.points| <= |p.points| + 1
    ensures r.Success? ==> r.value.points[..|p.points|] == p.points
    ensures r.Success? && |r.value.points| == |p.points| + 1 ==> r.value.points[|p.points|] == p.points[0]
    ensures r.Success? ==> r.value == p.(points := r.value.points)
    ensures IsClosed(p) ==> r == Success(p)
  {
    if IsClosed(p) then Success(p)
    else if |p.points| == 0 then Failure("Sequence contains no elements")
    else
      var q := p.(points := p.points + [p.points[0]]);
      assert Near(q.points[0], q.points[|q.points| - 1]);
      Success(q)
  }

  // ---------------------------------------------------------------------------
  // Rectangle sheets

  /** The five corners RectangleSheet.Build writes, starting and ending at (x, y). */
  function RectangleOutline(x: real, y: real, w: real, h: real): (r: seq<Point>)
    ensures |r| == 5 && r[0] == r[4]
    ensures r[0] == NewPoint(x, y) && r[1] == NewPoint(x, y + h)
    ensures r[2] == NewPoint(x + w, y + h) && r[3] == NewPoint(x + w, y)
  {
    [NewPoint(x, y), NewPoint(x, y + h), NewPoint(x + w, y + h), NewPoint(x + w, y), NewPoint(x, y)]
  }

  /** A non-negative width and height are the built outline's width and height. */
  lemma RectangleExtent(p: Nfp, w: real, h: real)
    requires w >= 0.0 && h >= 0.0
    requires p.points == RectangleOutline(p.x, p.y, w, h)
    ensures IsClosed(p)
    ensures MinX(p) == p.x && MaxX(p) == p.x + w && WidthCalculated(p) == w
    ensures MinY(p) == p.y && MaxY(p) == p.y + h && HeightCalculated(p) == h
  {
    var xs := Xs(p.points);
    var ys := Ys(p.points);
    assert Near(p.points[0], p.points[4]);
    MinOfUnique(xs, p.x, 0);
    MinOfUnique(ys, p.y, 0);
    MaxOfUnique(xs, p.x + w, 2);
    MaxOfUnique(ys, p.y + h, 2);
  }

  lemma MaxOfUnique(s: seq<real>, v: real, k: nat)
    requires k < |s| && s[k] == v
    requires forall i :: 0 <= i < |s| ==> s[i] <= v
    ensures MaxOf(s) == v
  {
  }

  // ---------------------------------------------------------------------------
  // The clone family

  function ClonePointsExact(pts: seq<Point>): (r: seq<Point>)
    ensures |r| == |pts|
    ensures forall i :: 0 <= i < |pts| ==> r[i] == ExactPoint(pts[i].x, pts[i].y, pts[i].exact)
  {
    seq(|pts|, i requires 0 <= i < |pts| => ExactPoint(pts[i].x, pts[i].y, pts[i].exact))
  }

  function ClonePointsPlain(pts: seq<Point>): (r: seq<Point>)
    ensures |r| == |pts|
    ensures forall i :: 0 <= i < |pts| ==> r[i] == NewPoint(pts[i].x, pts[i].y)
  {
    seq(|pts|, i requires 0 <= i < |pts| => NewPoint(pts[i].x, pts[i].y))
  }

  /**
   * CloneTree: points with their Exact flags, IsPriority, StrictAngle and Name,
   * holes cloned the same way; Id and Source are deliberately not copied.
   */
  function CloneTree(p: Nfp): (r: Nfp)
    ensures |r.points| == |p.points| && |r.children| == |p.children|
    ensures forall i :: 0 <= i < |p.points| ==>
      r.points[i].x == p.points[i].x && r.points[i].y == p.points[i].y && r.points[i].exact == p.points[i].exact
    ensures forall j :: 0 <= j < |p.children| ==> r.children[j] == CloneTree(p.children[j])
    ensures r.isPriority == p.isPriority && r.strictAngle == p.strictAngle && r.name == p.name
    ensures r.id == 0 && r.source == -1 && r.kind == CloneKind(p.kind)
    decreases p
  {
    Blank(CloneKind(p.kind)).(
      points := ClonePointsExact(p.points),
      isPriority := p.isPriority, strictAngle := p.strictAngle, name := p.name,
      children := seq(|p.children|, j requires 0 <= j < |p.children| => CloneTree(p.children[j])))
  }

  /** Cloning a tree clone gives the same tree again. */
  lemma {:induction false} CloneTreeIdempotent(p: Nfp)
    ensures CloneTree(CloneTree(p)) == CloneTree(p)
    decreases p
  {
    var once := CloneTree(p);
    var twice := CloneTree(once);
    forall j | 0 <= j < |p.children|
      ensures twice.children[j] == once.children[j]
    {
      CloneTreeIdempotent(p.children[j]);
    }
    assert twice.children == once.children;
    assert twice.points == once.points;
  }

  /** A tree clone does not depend on the Id and Source of the polygon it clones. */
  lemma CloneTreeIgnoresIdentity(p: Nfp, id: int, source: int)
    ensures CloneTree(p.(id := id, source := source)) == CloneTree(p)
  {
  }

  /**
   * CloneExact: Id, Name, Rotation, Source, IsPriority, StrictAngle and the
   * points with their Exact flags; each hole is rebuilt one level deep with
   * only its Id, Source and exact points.
   */
  function CloneExact(p: Nfp): (r: Nfp)
    ensures r.id == p.id && r.source == p.source && r.name == p.name
    ensures r.isPriority == p.isPriority && r.strictAngle == p.strictAngle
    ensures r.rotation == NormaliseRotation(p.rotation)
    ensures |r.points| == |p.points| && |r.children| == |p.children|
    ensures forall i :: 0 <= i < |p.points| ==>
      r.points[i].x == p.points[i].x && r.points[i].y == p.points[i].y && r.points[i].exact == p.points[i].exact
    ensures forall j :: 0 <= j < |p.children| ==>
      r.children[j].id == p.children[j].id && r.children[j].source == p.children[j].source &&
      r.children[j].children == [] && |r.children[j].points| == |p.children[j].points|
  {
    Blank(PlainPolygon).(
      id := p.id, name := p.name, rotation := NormaliseRotation(p.rotation), source := p.source,
      isPriority := p.isPriority, strictAngle := p.strictAngle,
      points := ClonePointsExact(p.points),
      children := seq(|p.children|, j requires 0 <= j < |p.children| =>
        Blank(PlainPolygon).(id := p.children[j].id, source := p.children[j].source,
                             points := ClonePointsExact(p.children[j].points))))
  }

  /**
   * Clone (CloneInstance): Id, Name, Rotation, Source, IsPriority and
   * StrictAngle, the points with default flags, and every hole cloned the
   * same way.
   */
  function Clone(p: Nfp): (r: Nfp)
    ensures r.id == p.id && r.source == p.source && r.name == p.name
    ensures r.isPriority == p.isPriority && r.strictAngle == p.strictAngle
    ensures r.rotation == NormaliseRotation(p.rotation) && r.kind == CloneKind(p.kind)
    ensures |r.points| == |p.points| && |r.children| == |p.children|
    ensures forall i :: 0 <= i < |p.points| ==> r.points[i] == NewPoint(p.points[i].x, p.points[i].y)
    ensures forall j :: 0 <= j < |p.children| ==> r.children[j] == Clone(p.children[j])
    decreases p
  {
    Blank(CloneKind(p.kind)).(
      id := p.id, name := p.name, rotation := NormaliseRotation(p.rotation), source := p.source,
      isPriority := p.isPriority, strictAngle := p.strictAngle,
      points := ClonePointsPlain(p.points),
      children := seq(|p.children|, j requires 0 <= j < |p.children| => Clone(p.children[j])))
  }

  /**
   * The copy constructor `new NoFitPolygon(source, withChildren)` (and the
   * Sheet copy constructors, which delegate to it): every field is copied,
   * points keep their flags, and holes are copied only when Included.
   */
  function CopyOf(p: Nfp, withChildren: WithChildren, kind: Kind): (r: Nfp)
    ensures r.points == p.points
    ensures r == p.(rotation := r.rotation, children := r.children, kind := kind)
    ensures r.rotation == NormaliseRotation(p.rotation)
    ensures withChildren == Excluded ==> r.children == []
    ensures withChildren == Included ==> |r.children| == |p.children|
    ensures withChildren == Included ==>
      forall j :: 0 <= j < |p.children| ==> r.children[j] == CopyOf(p.children[j], Included, PlainPolygon)
    decreases p
  {
    p.(rotation := NormaliseRotation(p.rotation), kind := kind,
       children := if withChildren == Excluded then []
                   else seq(|p.children|, j requires 0 <= j < |p.children| => CopyOf(p.children[j], Included, PlainPolygon)))
  }

  /** The engine's point rotation: a vertex turned by the given degrees about the origin. */
  type Turn = (real, real, real) -> (real, real)

  function RotatePoints(pts: seq<Point>, degrees: real, turn: Turn): (r: seq<Point>)
    ensures |r| == |pts|
    ensures forall i :: 0 <= i < |pts| ==>
      r[i] == NewPoint(turn(pts[i].x, pts[i].y, degrees).0, turn(pts[i].x, pts[i].y, degrees).1)
  {
    seq(|pts|, i requires 0 <= i < |pts| =>
      NewPoint(turn(pts[i].x, pts[i].y, degrees).0, turn(pts[i].x, pts[i].y, degrees).1))
  }

  /**
   * Rotate(degrees, withChildren): a clone whose points are turned and whose
   * Rotation is increased by `degrees` (through the setter); holes are turned
   * too when Included, and otherwise stay as unturned clones.
   */
  function Rotate(p: Nfp, degrees: real, withChildren: WithChildren, turn: Turn): (r: Nfp)
    ensures r.id == p.id && r.source == p.source && r.name == p.name
    ensures r.isPriority == p.isPriority && r.strictAngle == p.strictAngle
    ensures r.rotation == NormaliseRotation(NormaliseRotation(p.rotation) + degrees)
    ensures r.points == RotatePoints(p.points, degrees, turn)
    ensures |r.children| == |p.children|
    ensures withChildren == Included ==>
      forall j :: 0 <= j < |p.children| ==> r.children[j] == Rotate(p.children[j], degrees, Included, turn)
    ensures withChildren == Excluded ==> r.children == Clone(p).children
    decreases p
  {
    var c := Clone(p);
    c.(points := RotatePoints(p.points, degrees, turn),
       rotation := NormaliseRotation(c.rotation + degrees),
       children := if withChildren == Included
                   then seq(|p.children|, j requires 0 <= j < |p.children| => Rotate(p.children[j], degrees, Included, turn))
                   else c.children)
  }

  // ---------------------------------------------------------------------------
  // Structural equality

  /**
   * IEquatable<IPolygon>.Equals: Id, Name, Rotation, Source and hole count
   * first, then the points pairwise under the point equality, then the holes
   * recursively.
   */
  predicate Equals(a: Nfp, b: Nfp, pointEq: (Point, Point) -> bool)
    decreases a
  {
    a.id == b.id && a.name == b.name && a.rotation == b.rotation && a.source == b.source &&
    |a.children| == |b.children| &&
    PointsEqual(a.points, b.points, pointEq) &&
    forall c :: 0 <= c < |a.children| ==> Equals(a.children[c], b.children[c], pointEq)
  }

  predicate PointsEqual(a: seq<Point>, b: seq<Point>, pointEq: (Point, Point) -> bool)
  {
    |a| == |b| && forall i :: 0 <= i < |a| ==> pointEq(a[i], b[i])
  }

  /** With a reflexive point equality, every polygon equals itself. */
  lemma {:induction false} EqualsReflexive(a: Nfp, pointEq: (Point, Point) -> bool)
    requires forall p :: pointEq(p, p)
    ensures Equals(a, a, pointEq)
    decreases a
  {
    forall c | 0 <= c < |a.children|
      ensures Equals(a.children[c], a.children[c], pointEq)
    {
      EqualsReflexive(a.children[c], pointEq);
    }
  }

  /** With a symmetric point equality, polygon equality is symmetric. */
  lemma {:induction false} EqualsSymmetric(a: Nfp, b: Nfp, pointEq: (Point, Point) -> bool)
    requires forall p, q :: pointEq(p, q) ==> pointEq(q, p)
    requires Equals(a, b, pointEq)
    ensures Equals(b, a, pointEq)
    decreases a
  {
    forall c | 0 <= c < |b.children|
      ensures Equals(b.children[c], a.children[c], pointEq)
    {
      EqualsSymmetric(a.children[c], b.children[c], pointEq);
    }
  }

  /** Equality looks only at the compared fields: a shifted copy by (0, 0) equals its original. */
  lemma {:induction false} ShiftByZeroEquals(p: Nfp, pointEq: (Point, Point) -> bool)
    requires forall q :: pointEq(q, q)
    requires forall q: Point, s: Point :: q.x == s.x && q.y == s.y && q.exact == s.exact ==> pointEq(q, s)
    requires RotationsNormal(p)
    ensures Equals(Shift(p, 0.0, 0.0), p, pointEq)
    decreases p
  {
    var s := Shift(p, 0.0, 0.0);
    forall c | 0 <= c < |s.children|
      ensures Equals(s.children[c], p.children[c], pointEq)
    {
      ShiftByZeroEquals(p.children[c], pointEq);
    }
    assert PointsEqual(s.points, p.points, pointEq) by {
      forall i | 0 <= i < |s.points| ensures pointEq(s.points[i], p.points[i]) {
        assert s.points[i].x == p.points[i].x && s.points[i].y == p.points[i].y;
      }
    }
  }

  /** Every rotation in the tree is one the Rotation setter can have stored. */
  predicate RotationsNormal(p: Nfp)
    decreases p
  {
    -FullTurn < p.rotation < FullTurn &&
    forall c :: 0 <= c < |p.children| ==> RotationsNormal(p.children[c])
  }

  // ---------------------------------------------------------------------------
  // The polygon object and its mutators

  /** A polygon object whose mutators change it in place. */
  class NoFitPolygon {
    var state: Nfp

    constructor (kind: Kind)
      ensures state == Blank(kind)
    {
      state := Blank(kind);
    }

    method SetRotation(value: real)
      modifies this
      ensures state == WithRotation(old(state), value)
    {
      state := state.(rotation := NormaliseRotation(value));
    }

    method SetName(name: string)
      modifies this
      ensures state == old(state).(name := name)
    {
      state := state.(name := name);
    }

    method AddPoint(pt: Point)
      modifies this
      ensures state == AppendPoint(old(state), pt)
    {
      state := state.(points := state.points + [pt]);
    }

    /** ReplacePoints(IEnumerable<SvgPoint>). */
    method ReplacePoints(pts: seq<Point>)
      modifies this
      ensures state == old(state).(points := pts)
    {
      state := state.(points := pts);
    }

    /** EnsureIsClosed; `ok` is false where the source throws (empty outline), leaving the polygon as it was. */
    method EnsureIsClosed() returns (ok: bool)
      modifies this
      ensures ok <==> CloseOutline(old(state)).Success?
      ensures ok ==> state == CloseOutline(old(state)).value && IsClosed(state)
      ensures !ok ==> state == old(state)
    {
      if !IsClosed(state) {
        if |state.points| == 0 {
          return false;
        }
        var closed := state.points + [state.points[0]];
        state := state.(points := closed);
      }
      ok := true;
    }

    /** RectangleSheet.Build: the outline becomes the five corners anchored at the sheet's X, Y. */
    method Build(w: real, h: real)
      requires state.kind == RectangleSheet
      modifies this
      ensures state == old(state).(points := RectangleOutline(old(state).x, old(state).y, w, h))
    {
      ReplacePoints(RectangleOutline(state.x, state.y, w, h));
    }
  }

  /** Sheet.NewSheet(n, w, h): a rectangle sheet named "rectSheet"+n with the built outline. */
  method NewRectangleSheet(n: int, w: real := 3000.0, h: real := 1500.0) returns (sheet: Nfp)
    ensures sheet.kind == RectangleSheet && sheet.name == "rectSheet" + IntToString(n)
    ensures sheet.points == RectangleOutline(0.0, 0.0, w, h)
    ensures sheet == Blank(RectangleSheet).(name := sheet.name, points := sheet.points)
  {
    var tt := new NoFitPolygon(RectangleSheet);
    tt.SetName("rectSheet" + IntToString(n));
    tt.Build(w, h);
    sheet := tt.state;
  }

  /**
   * Sheet.NewSheet(n, nfp): the input is shifted to the origin and an
   * arbitrary sheet named "arbSheet"+n is built from it. ArbitrarySheet.Build
   * is not part of this model: `build` gives the outline it produces.
   */
  method NewArbitrarySheet(n: int, nfp: Nfp, build: Nfp -> seq<Point>) returns (sheet: Nfp)
    ensures sheet.kind == ArbitrarySheet && sheet.name == "arbSheet" + IntToString(n)
    ensures sheet.points == build(ShiftToOrigin(nfp))
    ensures sheet == Blank(ArbitrarySheet).(name := sheet.name, points := sheet.points)
  {
    var shifted := ShiftToOrigin(nfp);
    var tt := new NoFitPolygon(ArbitrarySheet);
    tt.SetName("arbSheet" + IntToString(n));
    tt.ReplacePoints(build(shifted));
    sheet := tt.state;
  }
}
