/**
 * RawDetail: the contours of an imported drawing, and their conversion into
 * one polygon whose largest contour is the outline and whose other contours
 * are its holes.
 */
module Details {
  import opened Wrappers
  import opened Geometry

  /** A contour of an imported drawing: its vertices, in drawing order. */
  datatype LocalContour = LocalContour(points: seq<(real, real)>)

  /** A loaded detail as a value: its contours and its name. */
  datatype Drawing = Drawing(outers: seq<LocalContour>, name: string)

  /** The polygon built from one contour: a fresh polygon with a new point per vertex, in order. */
  function ContourPolygon(c: LocalContour): (r: Nfp)
    ensures |r.points| == |c.points|
    ensures forall j :: 0 <= j < |c.points| ==> r.points[j] == NewPoint(c.points[j].0, c.points[j].1)
    ensures r == Blank(PlainPolygon).(points := r.points)
  {
    Blank(PlainPolygon).(points := seq(|c.points|, j requires 0 <= j < |c.points| => NewPoint(c.points[j].0, c.points[j].1)))
  }

  /** One polygon per contour, in the order of the contours. */
  function Contours(outers: seq<LocalContour>): (r: seq<Nfp>)
    ensures |r| == |outers| && forall i :: 0 <= i < |outers| ==> r[i] == ContourPolygon(outers[i])
  {
    seq(|outers|, i requires 0 <= i < |outers| => ContourPolygon(outers[i]))
  }

  /**
   * `OrderByDescending(z => z.Area).First()`: the position of the largest
   * area; the sort is stable, so among equal areas the first wins.
   */
  function FirstLargest(ps: seq<Nfp>, signedArea: seq<Point> -> real): (i: nat)
    requires |ps| > 0
    ensures i < |ps|
    ensures forall k :: 0 <= k < |ps| ==> Area(ps[k], signedArea) <= Area(ps[i], signedArea)
    ensures forall k :: 0 <= k < i ==> Area(ps[k], signedArea) < Area(ps[i], signedArea)
  {
    if |ps| == 1 then 0
    else
      var j := FirstLargest(ps[..|ps| - 1], signedArea);
      if Area(ps[|ps| - 1], signedArea) > Area(ps[j], signedArea) then |ps| - 1 else j
  }

  /** Being the first of the largest pins the position down. */
  lemma FirstLargestUnique(ps: seq<Nfp>, signedArea: seq<Point> -> real, i: nat)
    requires i < |ps|
    requires forall k :: 0 <= k < |ps| ==> Area(ps[k], signedArea) <= Area(ps[i], signedArea)
    requires forall k :: 0 <= k < i ==> Area(ps[k], signedArea) < Area(ps[i], signedArea)
    ensures FirstLargest(ps, signedArea) == i
  {
  }

  /** Every polygon but the one at position p, in their order. */
  function Without(ps: seq<Nfp>, p: nat): (r: seq<Nfp>)
    requires p < |ps|
    ensures |r| == |ps| - 1
    ensures forall k :: 0 <= k < p ==> r[k] == ps[k]
    ensures forall k :: p <= k < |r| ==> r[k] == ps[k + 1]
  {
    ps[..p] + ps[p + 1..]
  }

  /** The polygons among the first n other than the one at position p, in their order. */
  function Others(ps: seq<Nfp>, p: nat, n: nat): seq<Nfp>
    requires n <= |ps|
  {
    if n == 0 then [] else Others(ps, p, n - 1) + (if n - 1 == p then [] else [ps[n - 1]])
  }

  lemma {:induction false} OthersWithout(ps: seq<Nfp>, p: nat, n: nat)
    requires p < |ps| && n <= |ps|
    ensures p < n ==> Others(ps, p, n) == Without(ps, p)[..n - 1]
    ensures n <= p ==> Others(ps, p, n) == ps[..n]
  {
    if n > 0 {
      OthersWithout(ps, p, n - 1);
    }
  }

  /**
   * ToNfp: nothing without contours; otherwise the largest contour's
   * polygon, named after the detail, with every other contour as a hole.
   */
  function ToNfpOf(d: Drawing, signedArea: seq<Point> -> real): (r: Option<Nfp>)
    ensures r.None? <==> |d.outers| == 0
    ensures r.Some? ==> r.value.name == d.name && r.value.kind == PlainPolygon && |r.value.children| == |d.outers| - 1
  {
    if |d.outers| == 0 then Option.None
    else
      var nfps := Contours(d.outers);
      var p := FirstLargest(nfps, signedArea);
      Option.Some(nfps[p].(name := d.name, children := Without(nfps, p)))
  }

  /**
   * The converted detail's outline is a contour of largest area, the first
   * such; its holes are all the other contours in drawing order, and its
   * other metadata is that of a fresh polygon.
   */
  lemma ToNfpShape(d: Drawing, signedArea: seq<Point> -> real)
    requires |d.outers| > 0
    ensures var r := ToNfpOf(d, signedArea).value;
      var p := FirstLargest(Contours(d.outers), signedArea);
      r == Blank(PlainPolygon).(points := r.points, children := r.children, name := d.name) &&
      r.points == ContourPolygon(d.outers[p]).points &&
      (forall k :: 0 <= k < |d.outers| ==> Area(ContourPolygon(d.outers[k]), signedArea) <= Area(r, signedArea)) &&
      (forall k :: 0 <= k < p ==> Area(ContourPolygon(d.outers[k]), signedArea) < Area(r, signedArea)) &&
      (forall k :: 0 <= k < p ==> r.children[k] == ContourPolygon(d.outers[k])) &&
      (forall k :: p < k < |d.outers| ==> r.children[k - 1] == ContourPolygon(d.outers[k]))
  {
    var nfps := Contours(d.outers);
    var p := FirstLargest(nfps, signedArea);
    assert Area(ToNfpOf(d, signedArea).value, signedArea) == Area(nfps[p], signedArea);
  }

  /** TryConvertToNfp: the converted detail with the given Source, or nothing where ToNfp gives null. */
  function ConvertOf(d: Drawing, src: int, signedArea: seq<Point> -> real): (r: Option<Nfp>)
    ensures r.Some? <==> |d.outers| > 0
    ensures r.Some? ==> r.value == ToNfpOf(d, signedArea).value.(source := src)
  {
    match ToNfpOf(d, signedArea)
    case None => Option.None
    case Some(n) => Option.Some(n.(source := src))
  }

  /** A detail object whose contour list grows in place. */
  class RawDetail {
    var outers: seq<LocalContour>
    var name: string

    constructor (name: string)
      ensures outers == [] && this.name == name
    {
      outers := [];
      this.name := name;
    }

    /** The detail as a value. */
    function Value(): (d: Drawing)
      reads this
      ensures d.outers == outers && d.name == name
    {
      Drawing(outers, name)
    }

    /** AddContour: the contour goes to the end. */
    method AddContour(contour: LocalContour)
      modifies this`outers
      ensures outers == old(outers) + [contour]
    {
      outers := outers + [contour];
    }

    /** AddRangeContour: the contours go to the end, in their order. */
    method AddRangeContour(collection: seq<LocalContour>)
      modifies this`outers
      ensures outers == old(outers) + collection
    {
      outers := outers + collection;
    }

    /**
     * ToNfp: one new polygon per contour, its points added one by one; then
     * the largest becomes the result, takes the detail's name and gets the
     * others as children.
     */
    /** One polygon per contour, each built point by point. */
    method ContourNfps() returns (nfps: seq<Nfp>)
      ensures nfps == Contours(outers)
    {
      nfps := [];
      for i := 0 to |outers|
        invariant nfps == Contours(outers[..i])
      {
        var nfp := ContourNfp(outers[i].points);
        assert outers[..i + 1] == outers[..i] + [outers[i]];
        nfps := nfps + [nfp];
      }
      assert outers[..|outers|] == outers;
    }

    /** A fresh polygon with the contour's points added in order. */
    static method ContourNfp(pts: seq<(real, real)>) returns (nfp: Nfp)
      ensures nfp == ContourPolygon(LocalContour(pts))
    {
      var nn := new NoFitPolygon(PlainPolygon);
      for j := 0 to |pts|
        invariant nn.state == ContourPolygon(LocalContour(pts[..j]))
      {
        nn.AddPoint(NewPoint(pts[j].0, pts[j].1));
      }
      assert pts[..|pts|] == pts;
      nfp := nn.state;
    }

    method ToNfp(signedArea: seq<Point> -> real) returns (r: Option<Nfp>)
      ensures r == ToNfpOf(Value(), signedArea)
    {
      var nfps := ContourNfps();
      if |nfps| == 0 {
        return Option.None;
      }
      var parent := FirstLargest(nfps, signedArea);
      assert nfps[parent].children == [];
      var result := Adopt(nfps, parent, name);
      assert [] + Without(nfps, parent) == Without(nfps, parent);
      r := Option.Some(result);
    }

    /** The polygon at `parent`, renamed, with every other polygon added as a child in order. */
    static method Adopt(nfps: seq<Nfp>, parent: nat, name: string) returns (result: Nfp)
      requires parent < |nfps|
      ensures result == nfps[parent].(name := name, children := nfps[parent].children + Without(nfps, parent))
    {
      result := nfps[parent].(name := name);
      for k := 0 to |nfps|
        invariant result == nfps[parent].(name := name, children := nfps[parent].children + Others(nfps, parent, k))
      {
        if k != parent {
          result := result.(children := result.children + [nfps[k]]);
        }
      }
      assert nfps[parent].children + [] == nfps[parent].children;
      OthersWithout(nfps, parent, |nfps|);
      assert Without(nfps, parent)[..|nfps| - 1] == Without(nfps, parent);
    }

    /** TryConvertToNfp: `ok` is false exactly where ToNfp gives null; otherwise the result carries Source src. */
    method TryConvertToNfp(src: int, signedArea: seq<Point> -> real) returns (ok: bool, loaded: Option<Nfp>)
      ensures ok <==> ConvertOf(Value(), src, signedArea).Some?
      ensures loaded == ConvertOf(Value(), src, signedArea)
    {
      loaded := ToNfp(signedArea);
      if loaded.None? {
        return false, loaded;
      }
      loaded := Option.Some(loaded.value.(source := src));
      ok := true;
    }
  }
}
