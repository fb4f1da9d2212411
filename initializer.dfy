/**
 * SvgNestInitializer: before a nest starts, parts and sheets get positional
 * Ids, are cloned so the run never touches the caller's polygons, are grouped
 * by Source into nest items (first member, group size), and the groups get
 * one incrementing Source across parts, sheets and original sheets.
 * Polygons are values here: where the source writes an Id into the caller's
 * objects, the model returns the updated sequence.
 */
module Initialization {
  import opened Geometry

  // ---------------------------------------------------------------------------
  // Ids

  /** SetPolygonIds / SetSheetIds: the element at position i gets Id i, nothing else changes. */
  method SetIds(ps: seq<Nfp>) returns (r: seq<Nfp>)
    ensures |r| == |ps|
    ensures forall i :: 0 <= i < |ps| ==> r[i] == ps[i].(id := i)
  {
    r := [];
    var id := 0;
    while id < |ps|
      invariant id == |r| <= |ps|
      invariant forall i :: 0 <= i < id ==> r[i] == ps[i].(id := i)
    {
      r := r + [ps[id].(id := id)];
      id := id + 1;
    }
  }

  /** The polygons as SetIds leaves them. */
  function Numbered(ps: seq<Nfp>): (r: seq<Nfp>)
    ensures |r| == |ps|
    ensures forall i :: 0 <= i < |ps| ==> r[i].id == i && r[i] == ps[i].(id := i)
  {
    seq(|ps|, i requires 0 <= i < |ps| => ps[i].(id := i))
  }

  // ---------------------------------------------------------------------------
  // Clones

  /** ClonePolygons: a list of the same length and order holding each polygon's CloneExact. */
  method ClonePolygons(ps: seq<Nfp>) returns (r: seq<Nfp>)
    ensures |r| == |ps|
    ensures forall i :: 0 <= i < |ps| ==> r[i] == CloneExact(ps[i])
  {
    r := [];
    for i := 0 to |ps|
      invariant |r| == i
      invariant forall j :: 0 <= j < i ==> r[j] == CloneExact(ps[j])
    {
      r := r + [CloneExact(ps[i])];
    }
  }

  /** The list ClonePolygons builds. */
  function ClonedExact(ps: seq<Nfp>): (r: seq<Nfp>)
    ensures |r| == |ps|
    ensures forall i :: 0 <= i < |ps| ==> r[i] == CloneExact(ps[i])
  {
    seq(|ps|, i requires 0 <= i < |ps| => CloneExact(ps[i]))
  }

  /** A hole as CloneSheets rebuilds it: a new polygon with only the Id, Source and exact points. */
  function CloneHole(c: Nfp): (r: Nfp)
    ensures r.id == c.id && r.source == c.source && r.points == ClonePointsExact(c.points)
    ensures r == Blank(PlainPolygon).(id := r.id, source := r.source, points := r.points)
  {
    Blank(PlainPolygon).(id := c.id, source := c.source, points := ClonePointsExact(c.points))
  }

  /**
   * One sheet as CloneSheets copies it: a new plain Sheet with the Id, the
   * Source, the points with their Exact flags and each hole rebuilt by
   * CloneHole; name, rotation, position and the other fields are those of a
   * fresh Sheet.
   */
  function CloneSheet(s: Nfp): (r: Nfp)
    ensures r.kind == PlainSheet && r.id == s.id && r.source == s.source
    ensures |r.points| == |s.points|
    ensures forall i :: 0 <= i < |s.points| ==>
      r.points[i].x == s.points[i].x && r.points[i].y == s.points[i].y && r.points[i].exact == s.points[i].exact
    ensures |r.children| == |s.children|
    ensures forall j :: 0 <= j < |s.children| ==> r.children[j] == CloneHole(s.children[j])
    ensures r == Blank(PlainSheet).(id := s.id, source := s.source, points := r.points, children := r.children)
  {
    Blank(PlainSheet).(
      id := s.id, source := s.source, points := ClonePointsExact(s.points),
      children := seq(|s.children|, j requires 0 <= j < |s.children| => CloneHole(s.children[j])))
  }

  /** Cloning a sheet twice gives the same sheet as cloning it once. */
  lemma CloneSheetIdempotent(s: Nfp)
    ensures CloneSheet(CloneSheet(s)) == CloneSheet(s)
  {
    var once := CloneSheet(s);
    var twice := CloneSheet(once);
    assert twice.points == once.points;
    forall j | 0 <= j < |s.children|
      ensures twice.children[j] == once.children[j]
    {
      assert CloneHole(once.children[j]).points == once.children[j].points;
    }
    assert twice.children == once.children;
  }

  /** CloneSheets: a list of the same length and order holding each sheet's clone. */
  method CloneSheets(sheets: seq<Nfp>) returns (r: seq<Nfp>)
    ensures |r| == |sheets|
    ensures forall i :: 0 <= i < |sheets| ==> r[i] == CloneSheet(sheets[i])
  {
    r := [];
    for i := 0 to |sheets|
      invariant |r| == i
      invariant forall j :: 0 <= j < i ==> r[j] == CloneSheet(sheets[j])
    {
      var clone := Blank(PlainSheet).(id := sheets[i].id, source := sheets[i].source,
                                      points := ClonePointsExact(sheets[i].points));
      var holes := [];
      for c := 0 to |sheets[i].children|
        invariant |holes| == c
        invariant forall j :: 0 <= j < c ==> holes[j] == CloneHole(sheets[i].children[j])
      {
        holes := holes + [CloneHole(sheets[i].children[c])];
      }
      clone := clone.(children := holes);
      r := r + [clone];
    }
  }

  /** The list CloneSheets builds. */
  function ClonedSheets(sheets: seq<Nfp>): (r: seq<Nfp>)
    ensures |r| == |sheets|
    ensures forall i :: 0 <= i < |sheets| ==> r[i] == CloneSheet(sheets[i])
  {
    seq(|sheets|, i requires 0 <= i < |sheets| => CloneSheet(sheets[i]))
  }

  // ---------------------------------------------------------------------------
  // Grouping by Source

  /** Some member of `ps` has Source `src`. */
  predicate HasSource(ps: seq<Nfp>, src: int)
  {
    exists i :: 0 <= i < |ps| && ps[i].source == src
  }

  /** A Source found among all but the last member is found among all of them. */
  lemma HasSourceFront(ps: seq<Nfp>, src: int)
    requires |ps| > 0 && HasSource(ps[..|ps| - 1], src)
    ensures HasSource(ps, src)
  {
    var front := ps[..|ps| - 1];
    var i :| 0 <= i < |front| && front[i].source == src;
    assert ps[i] == front[i];
  }

  /** The distinct Sources of `ps`, in order of first appearance (the key order of GroupBy). */
  function SourceKeys(ps: seq<Nfp>): (r: seq<int>)
    ensures forall k :: 0 <= k < |r| ==> HasSource(ps, r[k])
  {
    if |ps| == 0 then []
    else
      var keys := SourceKeys(ps[..|ps| - 1]);
      var p := ps[|ps| - 1];
      assert forall k :: 0 <= k < |keys| ==> HasSource(ps, keys[k]) by {
        forall k | 0 <= k < |keys| ensures HasSource(ps, keys[k]) {
          HasSourceFront(ps, keys[k]);
        }
      }
      if p.source in keys then keys else keys + [p.source]
  }

  predicate Distinct(s: seq<int>)
  {
    forall i, j :: 0 <= i < j < |s| ==> s[i] != s[j]
  }

  /** Every Source of `ps` is a key, the keys are distinct. */
  lemma {:induction false} SourceKeysExact(ps: seq<Nfp>)
    ensures Distinct(SourceKeys(ps))
    ensures forall i :: 0 <= i < |ps| ==> ps[i].source in SourceKeys(ps)
  {
    if |ps| > 0 {
      var front := ps[..|ps| - 1];
      SourceKeysExact(front);
      forall i | 0 <= i < |ps| - 1
        ensures ps[i].source in SourceKeys(ps)
      {
        assert ps[i] == front[i];
      }
    }
  }

  /** How many members of `ps` have Source `src` (the group size). */
  function CountSource(ps: seq<Nfp>, src: int): (r: nat)
    ensures r <= |ps|
    ensures r == 0 <==> !HasSource(ps, src)
  {
    if |ps| == 0 then 0
    else
      var front := ps[..|ps| - 1];
      var c := CountSource(front, src);
      assert HasSource(ps, src) <==> HasSource(front, src) || ps[|ps| - 1].source == src by {
        if HasSource(ps, src) && ps[|ps| - 1].source != src {
          var i :| 0 <= i < |ps| && ps[i].source == src;
          assert front[i] == ps[i];
        }
        if HasSource(front, src) {
          HasSourceFront(ps, src);
        }
      }
      c + (if ps[|ps| - 1].source == src then 1 else 0)
  }

  /** The position of the first member of `ps` with Source `src` (the group's First()). */
  function FirstWithSource(ps: seq<Nfp>, src: int): (r: nat)
    requires HasSource(ps, src)
    ensures r < |ps| && ps[r].source == src
    ensures forall i :: 0 <= i < r ==> ps[i].source != src
  {
    if ps[0].source == src then 0
    else
      assert HasSource(ps[1..], src) by {
        var i :| 0 <= i < |ps| && ps[i].source == src;
        assert ps[1..][i - 1] == ps[i];
      }
      1 + FirstWithSource(ps[1..], src)
  }

  /**
   * GroupToNestItemList: one nest item per distinct Source, in order of first
   * appearance, holding the group's first member and the group's size.
   */
  function GroupToNestItemList(ps: seq<Nfp>): (r: seq<NestItem>)
    ensures |r| == |SourceKeys(ps)|
    ensures forall k :: 0 <= k < |r| ==>
      r[k].polygon == ps[FirstWithSource(ps, SourceKeys(ps)[k])] &&
      r[k].quantity == CountSource(ps, SourceKeys(ps)[k])
  {
    var keys := SourceKeys(ps);
    seq(|keys|, k requires 0 <= k < |keys| =>
      NestItem(ps[FirstWithSource(ps, keys[k])], CountSource(ps, keys[k])))
  }

  /** The groups' Sources are distinct and each group has at least one member. */
  lemma GroupsDistinct(ps: seq<Nfp>)
    ensures var r := GroupToNestItemList(ps);
      (forall k, l :: 0 <= k < l < |r| ==> r[k].polygon.source != r[l].polygon.source) &&
      (forall k :: 0 <= k < |r| ==> r[k].quantity > 0)
  {
    SourceKeysExact(ps);
  }

  /** Every input polygon's Source has a group. */
  lemma GroupsCover(ps: seq<Nfp>)
    ensures var r := GroupToNestItemList(ps);
      forall i :: 0 <= i < |ps| ==> exists k :: 0 <= k < |r| && r[k].polygon.source == ps[i].source
  {
    var r := GroupToNestItemList(ps);
    var keys := SourceKeys(ps);
    SourceKeysExact(ps);
    forall i | 0 <= i < |ps|
      ensures exists k :: 0 <= k < |r| && r[k].polygon.source == ps[i].source
    {
      var k :| 0 <= k < |keys| && keys[k] == ps[i].source;
      assert r[k].polygon.source == keys[k];
    }
  }

  /** The groups are listed in order of their first members' positions. */
  lemma {:induction false} SourceKeysOrdered(ps: seq<Nfp>)
    ensures forall k, l :: 0 <= k < l < |SourceKeys(ps)| ==>
      FirstWithSource(ps, SourceKeys(ps)[k]) < FirstWithSource(ps, SourceKeys(ps)[l])
  {
    if |ps| > 0 {
      var front := ps[..|ps| - 1];
      SourceKeysOrdered(front);
      SourceKeysExact(front);
      var keysF := SourceKeys(front);
      var keys := SourceKeys(ps);
      var last := ps[|ps| - 1].source;
      if last in keysF {
        assert keys == keysF;
        forall k, l | 0 <= k < l < |keys|
          ensures FirstWithSource(ps, keys[k]) < FirstWithSource(ps, keys[l])
        {
          assert keys[k] == keysF[k] && keys[l] == keysF[l];
          FirstInFront(ps, keys[k]);
          FirstInFront(ps, keys[l]);
        }
      } else {
        assert keys == keysF + [last];
        LastFirst(ps);
        forall k, l | 0 <= k < l < |keys|
          ensures FirstWithSource(ps, keys[k]) < FirstWithSource(ps, keys[l])
        {
          assert keys[k] == keysF[k];
          FirstInFront(ps, keys[k]);
          if l < |keysF| {
            assert keys[l] == keysF[l];
            FirstInFront(ps, keys[l]);
          }
        }
      }
    }
  }

  /** A Source new in the last member is first found there. */
  lemma LastFirst(ps: seq<Nfp>)
    requires |ps| > 0 && ps[|ps| - 1].source !in SourceKeys(ps[..|ps| - 1])
    ensures FirstWithSource(ps, ps[|ps| - 1].source) == |ps| - 1
  {
    var front := ps[..|ps| - 1];
    SourceKeysExact(front);
    forall i | 0 <= i < |ps| - 1 ensures ps[i].source != ps[|ps| - 1].source {
      assert ps[i] == front[i];
    }
  }

  /** A Source already present before the last element has the same first position with or without it. */
  lemma FirstInFront(ps: seq<Nfp>, src: int)
    requires |ps| > 0 && HasSource(ps[..|ps| - 1], src)
    ensures HasSource(ps, src)
    ensures FirstWithSource(ps, src) == FirstWithSource(ps[..|ps| - 1], src)
    ensures FirstWithSource(ps, src) < |ps| - 1
  {
    var front := ps[..|ps| - 1];
    HasSourceFront(ps, src);
    var a := FirstWithSource(ps, src);
    var b := FirstWithSource(front, src);
    assert ps[b] == front[b];
    assert a <= b;
    assert front[a] == ps[a];
  }

  /** The group sizes over a list of distinct Sources, summed. */
  function SumCounts(ps: seq<Nfp>, keys: seq<int>): nat
  {
    if |keys| == 0 then 0 else SumCounts(ps, keys[..|keys| - 1]) + CountSource(ps, keys[|keys| - 1])
  }

  /** One more polygon adds one to the sum of exactly the group it joins. */
  lemma {:induction false} SumCountsSnoc(ps: seq<Nfp>, p: Nfp, keys: seq<int>)
    requires Distinct(keys)
    ensures SumCounts(ps + [p], keys) == SumCounts(ps, keys) + (if p.source in keys then 1 else 0)
  {
    assert (ps + [p])[..|ps|] == ps;
    if |keys| > 0 {
      var front := keys[..|keys| - 1];
      SumCountsSnoc(ps, p, front);
      assert p.source in keys <==> p.source in front || p.source == keys[|keys| - 1];
      assert keys[|keys| - 1] !in front;
    }
  }

  /** The group sizes of keys absent from `ps` add up to nothing. */
  lemma {:induction false} SumCountsAppendKey(ps: seq<Nfp>, keys: seq<int>, src: int)
    ensures SumCounts(ps, keys + [src]) == SumCounts(ps, keys) + CountSource(ps, src)
  {
    assert (keys + [src])[..|keys|] == keys;
  }

  /** The quantities of GroupToNestItemList add up to the number of polygons grouped. */
  lemma {:induction false} QuantitiesSumToCount(ps: seq<Nfp>)
    ensures SumCounts(ps, SourceKeys(ps)) == |ps|
  {
    if |ps| > 0 {
      var front := ps[..|ps| - 1];
      var p := ps[|ps| - 1];
      assert ps == front + [p];
      QuantitiesSumToCount(front);
      SourceKeysExact(front);
      var keys := SourceKeys(front);
      if p.source in keys {
        SumCountsSnoc(front, p, keys);
      } else {
        SumCountsSnoc(front, p, keys);
        SumCountsAppendKey(ps, keys, p.source);
        assert CountSource(ps, p.source) == 1 by {
          assert CountSource(front, p.source) == 0;
        }
      }
    }
  }

  /** The sum of the quantities of a list of nest items. */
  function TotalQuantity(items: seq<NestItem>): int
  {
    if |items| == 0 then 0 else TotalQuantity(items[..|items| - 1]) + items[|items| - 1].quantity
  }

  /** Grouping neither loses nor invents a polygon: the quantities sum to the input count. */
  lemma GroupedQuantitiesSum(ps: seq<Nfp>)
    ensures TotalQuantity(GroupToNestItemList(ps)) == |ps|
  {
    QuantitiesSumToCount(ps);
    var keys := SourceKeys(ps);
    var r := GroupToNestItemList(ps);
    TotalIsSumCounts(ps, keys, r);
  }

  lemma {:induction false} TotalIsSumCounts(ps: seq<Nfp>, keys: seq<int>, r: seq<NestItem>)
    requires |r| == |keys|
    requires forall k :: 0 <= k < |r| ==> r[k].quantity == CountSource(ps, keys[k])
    ensures TotalQuantity(r) == SumCounts(ps, keys)
  {
    if |r| > 0 {
      TotalIsSumCounts(ps, keys[..|keys| - 1], r[..|r| - 1]);
    }
  }

  // ---------------------------------------------------------------------------
  // One incrementing Source

  /** The items with Sources start, start+1, … in list order; nothing else changes. */
  function Renumbered(items: seq<NestItem>, start: int): (r: seq<NestItem>)
    ensures |r| == |items|
    ensures forall i :: 0 <= i < |items| ==>
      r[i].polygon.source == start + i && r[i] == items[i].(polygon := items[i].polygon.(source := start + i))
  {
    seq(|items|, i requires 0 <= i < |items| => items[i].(polygon := items[i].polygon.(source := start + i)))
  }

  /** SetIncrementingSource: one counter runs through the parts, then the sheets, then the original sheets. */
  method SetIncrementingSource(parts: seq<NestItem>, sheets: seq<NestItem>, originals: seq<NestItem>)
    returns (parts': seq<NestItem>, sheets': seq<NestItem>, originals': seq<NestItem>)
    ensures parts' == Renumbered(parts, 0)
    ensures sheets' == Renumbered(sheets, |parts|)
    ensures originals' == Renumbered(originals, |parts| + |sheets|)
  {
    var srcc := 0;
    parts' := [];
    for i := 0 to |parts|
      invariant srcc == i == |parts'|
      invariant forall j :: 0 <= j < i ==> parts'[j] == parts[j].(polygon := parts[j].polygon.(source := j))
    {
      parts' := parts' + [parts[i].(polygon := parts[i].polygon.(source := srcc))];
      srcc := srcc + 1;
    }
    sheets' := [];
    for i := 0 to |sheets|
      invariant srcc == |parts| + i && i == |sheets'|
      invariant forall j :: 0 <= j < i ==> sheets'[j] == sheets[j].(polygon := sheets[j].polygon.(source := |parts| + j))
    {
      sheets' := sheets' + [sheets[i].(polygon := sheets[i].polygon.(source := srcc))];
      srcc := srcc + 1;
    }
    originals' := [];
    for i := 0 to |originals|
      invariant srcc == |parts| + |sheets| + i && i == |originals'|
      invariant forall j :: 0 <= j < i ==>
        originals'[j] == originals[j].(polygon := originals[j].polygon.(source := |parts| + |sheets| + j))
    {
      originals' := originals' + [originals[i].(polygon := originals[i].polygon.(source := srcc))];
      srcc := srcc + 1;
    }
  }

  function SourcesOf(items: seq<NestItem>): (r: seq<int>)
    ensures |r| == |items| && forall i :: 0 <= i < |items| ==> r[i] == items[i].polygon.source
  {
    seq(|items|, i requires 0 <= i < |items| => items[i].polygon.source)
  }

  /** After SetIncrementingSource the Sources across the three lists are exactly 0, 1, …, n-1 in order. */
  lemma IncrementingSourcesConsecutive(parts: seq<NestItem>, sheets: seq<NestItem>, originals: seq<NestItem>)
    ensures var all := Renumbered(parts, 0) + Renumbered(sheets, |parts|) + Renumbered(originals, |parts| + |sheets|);
      forall i :: 0 <= i < |all| ==> SourcesOf(all)[i] == i
  {
    var a := Renumbered(parts, 0);
    var b := Renumbered(sheets, |parts|);
    var c := Renumbered(originals, |parts| + |sheets|);
    var all := a + b + c;
    forall i | 0 <= i < |all|
      ensures SourcesOf(all)[i] == i
    {
      if i < |a| {
        assert all[i] == a[i];
      } else if i < |a| + |b| {
        assert all[i] == b[i - |a|];
      } else {
        assert all[i] == c[i - |a| - |b|];
      }
    }
  }

  // ---------------------------------------------------------------------------
  // The whole preparation

  /**
   * BuildNestItems with the offset-tree phase off: the caller's parts and
   * sheets get positional Ids, the run works on clones grouped by Source, and
   * the groups are renumbered with one incrementing Source.
   */
  method BuildNestItems(parts: seq<Nfp>, sheets: seq<Nfp>, originals: seq<Nfp>)
    returns (parts': seq<Nfp>, sheets': seq<Nfp>, originals': seq<Nfp>,
             partsLocal: seq<NestItem>, sheetsLocal: seq<NestItem>, originalsLocal: seq<NestItem>)
    ensures parts' == Numbered(parts) && sheets' == Numbered(sheets) && originals' == Numbered(originals)
    ensures partsLocal == Renumbered(GroupToNestItemList(ClonedExact(parts')), 0)
    ensures sheetsLocal == Renumbered(GroupToNestItemList(ClonedSheets(sheets')), |partsLocal|)
    ensures originalsLocal ==
      Renumbered(GroupToNestItemList(ClonedSheets(originals')), |partsLocal| + |sheetsLocal|)
  {
    parts' := SetIds(parts);
    sheets' := SetIds(sheets);
    originals' := SetIds(originals);
    var clonedPolygons := ClonePolygons(parts');
    var clonedSheets := CloneSheets(sheets');
    var clonedOriginals := CloneSheets(originals');
    assert clonedPolygons == ClonedExact(parts');
    assert clonedSheets == ClonedSheets(sheets');
    assert clonedOriginals == ClonedSheets(originals');
    partsLocal, sheetsLocal, originalsLocal := SetIncrementingSource(
      GroupToNestItemList(clonedPolygons), GroupToNestItemList(clonedSheets), GroupToNestItemList(clonedOriginals));
  }

  /**
   * Because Ids are assigned before cloning and grouping, each part nest item
   * carries the Id of the first part of its group: its position in the
   * caller's list. So the part items' Ids are distinct positions.
   */
  lemma GroupedPartsCarryIds(parts: seq<Nfp>)
    ensures var items := GroupToNestItemList(ClonedExact(Numbered(parts)));
      forall k :: 0 <= k < |items| ==>
        0 <= items[k].polygon.id < |parts| && items[k].polygon.source == parts[items[k].polygon.id].source
    ensures var items := GroupToNestItemList(ClonedExact(Numbered(parts)));
      forall k, l :: 0 <= k < l < |items| ==> items[k].polygon.id < items[l].polygon.id
  {
    var cloned := ClonedExact(Numbered(parts));
    var items := GroupToNestItemList(cloned);
    var keys := SourceKeys(cloned);
    SourceKeysOrdered(cloned);
    forall k | 0 <= k < |items|
      ensures items[k].polygon.id == FirstWithSource(cloned, keys[k])
    {
      var f := FirstWithSource(cloned, keys[k]);
      assert items[k].polygon == cloned[f];
      assert cloned[f] == CloneExact(Numbered(parts)[f]);
    }
    forall k, l | 0 <= k < l < |items|
      ensures items[k].polygon.id < items[l].polygon.id
    {
      assert FirstWithSource(cloned, keys[k]) < FirstWithSource(cloned, keys[l]);
    }
  }
}
