/**
 * NestExecutionHelper: filling a nesting context from a project's sheet and
 * part entries. Reading and parsing the files is an oracle `load` that gives
 * each loaded detail's contours and name, or nothing where loading fails.
 */
module Execution {
  import opened Wrappers
  import opened Numeric
  import opened Geometry
  import opened SheetLoading
  import opened Details
  import opened Context

  /** A part entry of a nest project. */
  datatype DetailLoadInfo = DetailLoadInfo(
    path: string,
    quantity: int,
    isIncluded: bool,
    isPriority: bool,
    isMultiplied: bool,
    strictAngle: AnglesEnum)

  /** Items added so far, and whether the adding ran to the end (false where an exception escapes). */
  datatype Loaded = Loaded(items: seq<Nfp>, complete: bool)

  /** How many times a `for (i = 0; i < q; i++)` loop runs. */
  function Times(q: int): (n: nat)
    ensures q >= 0 ==> n == q
    ensures q < 0 ==> n == 0
  {
    if q < 0 then 0 else q
  }

  /** `Quantity * (IsMultiplied ? Multiplier : 1)`. */
  function CopyCount(item: DetailLoadInfo, multiplier: int): int
  {
    item.quantity * (if item.isMultiplied then multiplier else 1)
  }

  /** The part AddToPolygons copies: the converted detail with the entry's priority and angle setting. */
  function LoadedPart(n: Nfp, item: DetailLoadInfo): (r: Nfp)
    ensures r.isPriority == item.isPriority && r.strictAngle == item.strictAngle
    ensures r == n.(isPriority := r.isPriority, strictAngle := r.strictAngle)
  {
    n.(isPriority := item.isPriority, strictAngle := item.strictAngle)
  }

  /**
   * The parts AddToPolygons adds: nothing where the conversion fails;
   * otherwise quantity-times-multiplier clones of the converted detail, each
   * with Source src and the entry's priority and angle setting.
   */
  function PartsOf(d: Drawing, src: int, item: DetailLoadInfo, multiplier: int, signedArea: seq<Point> -> real): (r: seq<Nfp>)
    ensures |d.outers| == 0 ==> r == []
    ensures |d.outers| > 0 ==> |r| == Times(CopyCount(item, multiplier))
    ensures forall i :: 0 <= i < |r| ==>
      r[i].source == src && r[i].isPriority == item.isPriority && r[i].strictAngle == item.strictAngle &&
      r[i].name == d.name && |r[i].children| == |d.outers| - 1 && r[i].kind == PlainPolygon
  {
    match ConvertOf(d, src, signedArea)
    case None => []
    case Some(n) => seq(Times(CopyCount(item, multiplier)), _ => Clone(LoadedPart(n, item)))
  }

  /** The entries whose IsIncluded is set, in order. */
  function Included(infos: seq<DetailLoadInfo>): (r: seq<DetailLoadInfo>)
    ensures |r| <= |infos|
    ensures forall i :: 0 <= i < |r| ==> r[i].isIncluded
  {
    if |infos| == 0 then []
    else Included(infos[..|infos| - 1]) + (if infos[|infos| - 1].isIncluded then [infos[|infos| - 1]] else [])
  }

  /**
   * The parts InitialiseNest loads from the first entries: each included
   * entry, numbered 0, 1, 2, ... among the included ones, adds its parts;
   * an entry whose file does not load throws and ends the loading.
   */
  function LoadParts(infos: seq<DetailLoadInfo>, load: string -> Option<Drawing>, multiplier: int,
                     signedArea: seq<Point> -> real): Loaded
  {
    if |infos| == 0 then Loaded([], true)
    else
      var prev := LoadParts(infos[..|infos| - 1], load, multiplier, signedArea);
      var item := infos[|infos| - 1];
      if !prev.complete || !item.isIncluded then prev
      else
        match load(item.path)
        case None => Loaded(prev.items, false)
        case Some(d) => Loaded(prev.items + PartsOf(d, |Included(infos[..|infos| - 1])|, item, multiplier, signedArea), true)
  }

  /** Filtering twice is filtering once. */
  lemma {:induction false} IncludedIdempotent(infos: seq<DetailLoadInfo>)
    ensures Included(Included(infos)) == Included(infos)
  {
    if |infos| > 0 {
      var prefix := infos[..|infos| - 1];
      IncludedIdempotent(prefix);
      IncludedOfAllIncluded(Included(infos));
    }
  }

  lemma {:induction false} IncludedOfAllIncluded(infos: seq<DetailLoadInfo>)
    requires forall i :: 0 <= i < |infos| ==> infos[i].isIncluded
    ensures Included(infos) == infos
  {
    if |infos| > 0 {
      IncludedOfAllIncluded(infos[..|infos| - 1]);
    }
  }

  /** Entries without IsIncluded play no part: loading them all is loading the included ones. */
  lemma {:induction false} LoadPartsIncludedOnly(infos: seq<DetailLoadInfo>, load: string -> Option<Drawing>, multiplier: int,
                                                  signedArea: seq<Point> -> real)
    ensures LoadParts(infos, load, multiplier, signedArea) == LoadParts(Included(infos), load, multiplier, signedArea)
  {
    if |infos| > 0 {
      var prefix := infos[..|infos| - 1];
      var item := infos[|infos| - 1];
      LoadPartsIncludedOnly(prefix, load, multiplier, signedArea);
      if !item.isIncluded {
        assert Included(infos) == Included(prefix);
      } else {
        var inc := Included(infos);
        assert inc == Included(prefix) + [item];
        assert inc[..|inc| - 1] == Included(prefix);
        IncludedOfAllIncluded(Included(prefix));
      }
    }
  }

  /**
   * The loaded parts are numbered by included entry: every Source lies in
   * 0 .. (included entries - 1) and the Sources never decrease along the list.
   */
  lemma {:induction false} LoadPartsSources(infos: seq<DetailLoadInfo>, load: string -> Option<Drawing>, multiplier: int,
                                            signedArea: seq<Point> -> real)
    ensures forall i :: 0 <= i < |LoadParts(infos, load, multiplier, signedArea).items| ==>
      0 <= LoadParts(infos, load, multiplier, signedArea).items[i].source < |Included(infos)|
    ensures forall i, j :: 0 <= i < j < |LoadParts(infos, load, multiplier, signedArea).items| ==>
      LoadParts(infos, load, multiplier, signedArea).items[i].source <= LoadParts(infos, load, multiplier, signedArea).items[j].source
  {
    if |infos| > 0 {
      var prefix := infos[..|infos| - 1];
      var item := infos[|infos| - 1];
      LoadPartsSources(prefix, load, multiplier, signedArea);
      var prev := LoadParts(prefix, load, multiplier, signedArea);
      assert |Included(infos)| >= |Included(prefix)|;
      if prev.complete && item.isIncluded && load(item.path).Some? {
        var added := PartsOf(load(item.path).value, |Included(prefix)|, item, multiplier, signedArea);
        assert |Included(infos)| == |Included(prefix)| + 1;
        assert LoadParts(infos, load, multiplier, signedArea).items == prev.items + added;
      }
    }
  }

  /** A sheet built by `Sheet.NewSheet(n, w, h)`. */
  function RectangleSheetValue(n: int, w: real, h: real): (r: Nfp)
    ensures r.kind == RectangleSheet && r.name == "rectSheet" + IntToString(n)
    ensures r.points == RectangleOutline(0.0, 0.0, w, h)
    ensures r == Blank(RectangleSheet).(name := r.name, points := r.points)
  {
    Blank(RectangleSheet).(name := "rectSheet" + IntToString(n), points := RectangleOutline(0.0, 0.0, w, h))
  }

  /** A sheet built by `Sheet.NewSheet(n, nfp)`, where `outline` is what building the shifted input gives. */
  function ArbitrarySheetValue(n: int, outline: seq<Point>): (r: Nfp)
    ensures r.kind == ArbitrarySheet && r.name == "arbSheet" + IntToString(n) && r.points == outline
    ensures r == Blank(ArbitrarySheet).(name := r.name, points := r.points)
  {
    Blank(ArbitrarySheet).(name := "arbSheet" + IntToString(n), points := outline)
  }

  /** `q` rectangle sheets after `count` sheets, numbered on from count + 1, all with Source src. */
  function RectangleSheets(q: int, count: nat, w: real, h: real, src: int): (r: seq<Nfp>)
    ensures |r| == Times(q)
    ensures forall i :: 0 <= i < |r| ==> r[i] == RectangleSheetValue(count + i + 1, w, h).(source := src)
  {
    seq(Times(q), i => RectangleSheetValue(count + i + 1, w, h).(source := src))
  }

  /** `q` sheets with one outline after `count` sheets, numbered on from count + 1, all with Source src. */
  function ArbitrarySheets(q: int, count: nat, outline: seq<Point>, src: int): (r: seq<Nfp>)
    ensures |r| == Times(q)
    ensures forall i :: 0 <= i < |r| ==> r[i] == ArbitrarySheetValue(count + i + 1, outline).(source := src)
  {
    seq(Times(q), i => ArbitrarySheetValue(count + i + 1, outline).(source := src))
  }

  /**
   * The sheets one sheet entry adds after `count` sheets, all with Source
   * src: Quantity rectangles of its size, or Quantity sheets built from its
   * loaded outline (none where the conversion fails). A null or empty path or
   * a file that does not load throws.
   */
  function EntrySheets(info: SheetLoadInfo, src: int, count: nat, load: string -> Option<Drawing>,
                       build: Nfp -> seq<Point>, signedArea: seq<Point> -> real): (r: Loaded)
    ensures r.complete ==> |r.items| <= Times(info.quantity)
    ensures info.sheetType == Rectangle ==> r.complete && |r.items| == Times(info.quantity)
    ensures forall i :: 0 <= i < |r.items| ==> r.items[i].source == src
    ensures info.sheetType == Rectangle ==> forall i :: 0 <= i < |r.items| ==> r.items[i].kind == RectangleSheet
    ensures info.sheetType == Arbitrary ==> forall i :: 0 <= i < |r.items| ==> r.items[i].kind == ArbitrarySheet
  {
    if info.sheetType == Arbitrary then
      if IsNullOrEmpty(info.path) then Loaded([], false)
      else
        match load(info.path.value)
        case None => Loaded([], false)
        case Some(d) =>
          match ConvertOf(d, src, signedArea)
          case None => Loaded([], true)
          case Some(nfp) =>
            Loaded(ArbitrarySheets(info.quantity, count, build(ShiftToOrigin(nfp)), src), true)
    else
      Loaded(RectangleSheets(info.quantity, count, info.width, info.height, src), true)
  }

  /** A rectangle entry adds Quantity sheets of its size, named after their 1-based positions. */
  lemma RectangleEntry(info: SheetLoadInfo, src: int, count: nat, load: string -> Option<Drawing>,
                       build: Nfp -> seq<Point>, signedArea: seq<Point> -> real)
    requires info.sheetType == Rectangle
    ensures var r := EntrySheets(info, src, count, load, build, signedArea).items;
      forall i :: 0 <= i < |r| ==>
        r[i].name == "rectSheet" + IntToString(count + i + 1) &&
        r[i].points == RectangleOutline(0.0, 0.0, info.width, info.height) &&
        r[i] == Blank(RectangleSheet).(name := r[i].name, points := r[i].points, source := src)
  {
  }

  /**
   * The sheets InitialiseNest loads from the first entries: each entry takes
   * the next free sheet Source and adds its sheets; an entry that throws ends
   * the loading.
   */
  function LoadSheets(infos: seq<SheetLoadInfo>, load: string -> Option<Drawing>, build: Nfp -> seq<Point>,
                      signedArea: seq<Point> -> real): Loaded
  {
    if |infos| == 0 then Loaded([], true)
    else
      var prev := LoadSheets(infos[..|infos| - 1], load, build, signedArea);
      if !prev.complete then prev
      else
        var e := EntrySheets(infos[|infos| - 1], NextSource(prev.items), |prev.items|, load, build, signedArea);
        Loaded(prev.items + e.items, e.complete)
  }

  /**
   * Sheet Sources never decrease along the loaded sheets, and every sheet an
   * entry adds has a Source above that of every sheet loaded before it.
   */
  lemma {:induction false} LoadSheetsSources(infos: seq<SheetLoadInfo>, load: string -> Option<Drawing>,
                                             build: Nfp -> seq<Point>, signedArea: seq<Point> -> real)
    ensures forall i :: 0 <= i < |LoadSheets(infos, load, build, signedArea).items| ==>
      LoadSheets(infos, load, build, signedArea).items[i].source >= 0
    ensures forall i, j :: 0 <= i < j < |LoadSheets(infos, load, build, signedArea).items| ==>
      LoadSheets(infos, load, build, signedArea).items[i].source <= LoadSheets(infos, load, build, signedArea).items[j].source
  {
    if |infos| > 0 {
      var prefix := infos[..|infos| - 1];
      LoadSheetsSources(prefix, load, build, signedArea);
      var prev := LoadSheets(prefix, load, build, signedArea);
      if prev.complete {
        var src := NextSource(prev.items);
        var e := EntrySheets(infos[|infos| - 1], src, |prev.items|, load, build, signedArea);
        assert src >= 0 by {
          if |prev.items| > 0 {
            var k :| 0 <= k < |prev.items| && prev.items[k].source == src - 1;
          }
        }
        assert forall i :: 0 <= i < |prev.items| ==> prev.items[i].source < src;
        assert forall i :: 0 <= i < |e.items| ==> e.items[i].source == src;
        assert LoadSheets(infos, load, build, signedArea).items == prev.items + e.items;
      }
    }
  }

  /** Each entry's sheets share one Source not used by any sheet before them. */
  lemma EntrySourceFresh(prev: seq<Nfp>, info: SheetLoadInfo, load: string -> Option<Drawing>,
                         build: Nfp -> seq<Point>, signedArea: seq<Point> -> real)
    ensures var e := EntrySheets(info, NextSource(prev), |prev|, load, build, signedArea).items;
      forall i, k :: 0 <= i < |e| && 0 <= k < |prev| ==> e[i].source != prev[k].source && e[i].source == e[0].source
  {
  }

  /** AddToPolygons: on a successful conversion the clones go to the end of the parts; otherwise nothing changes. */
  method AddToPolygons(context: NestingContext, src: int, det: RawDetail, item: DetailLoadInfo, multiplier: int,
                       signedArea: seq<Point> -> real)
    modifies context`polygons
    ensures context.polygons == old(context.polygons) + PartsOf(det.Value(), src, item, multiplier, signedArea)
  {
    var ok, loadedNfp := det.TryConvertToNfp(src, signedArea);
    if ok {
      var part := LoadedPart(loadedNfp.value, item);
      var quantity := item.quantity * (if item.isMultiplied then multiplier else 1);
      ghost var before := context.polygons;
      var i := 0;
      while i < quantity
        invariant 0 <= i <= Times(quantity)
        invariant context.polygons == before + seq(i, _ => Clone(part))
      {
        context.polygons := context.polygons + [Clone(part)];
        i := i + 1;
      }
    }
  }

  /** The other AddToPolygons overload: the entry is made from its arguments. */
  method AddToPolygonsWith(context: NestingContext, src: int, det: RawDetail, quantity: int, multiplier: int,
                           signedArea: seq<Point> -> real, isIncluded: bool := true, isPriority: bool := false,
                           isMultiplied: bool := false, strictAngles: AnglesEnum := AsPreviewed)
    modifies context`polygons
    ensures context.polygons == old(context.polygons) +
      PartsOf(det.Value(), src, DetailLoadInfo("", quantity, isIncluded, isPriority, isMultiplied, strictAngles), multiplier, signedArea)
  {
    var item := DetailLoadInfo("", quantity, isIncluded, isPriority, isMultiplied, strictAngles);
    AddToPolygons(context, src, det, item, multiplier, signedArea);
  }

  /** The detail object the parser hands back for a loaded drawing. */
  method NewDetail(d: Drawing) returns (det: RawDetail)
    ensures fresh(det) && det.Value() == d
  {
    det := new RawDetail(d.name);
    det.AddRangeContour(d.outers);
  }

  /** One turn of InitialiseNest's sheet loop. */
  method AddEntrySheets(context: NestingContext, info: SheetLoadInfo, load: string -> Option<Drawing>,
                        build: Nfp -> seq<Point>, signedArea: seq<Point> -> real) returns (ok: bool)
    modifies context`sheets
    ensures ok == EntrySheets(info, NextSource(old(context.sheets)), |old(context.sheets)|, load, build, signedArea).complete
    ensures context.sheets == old(context.sheets) +
      EntrySheets(info, NextSource(old(context.sheets)), |old(context.sheets)|, load, build, signedArea).items
  {
    var src := context.GetNextSheetSource();
    ok := true;
    if info.sheetType == Arbitrary {
      if IsNullOrEmpty(info.path) {
        return false;
      }
      var d := load(info.path.value);
      if d.None? {
        return false;
      }
      var det := NewDetail(d.value);
      var converted, loadedNfp := det.TryConvertToNfp(src, signedArea);
      if converted {
        AddArbitrarySheets(context, info.quantity, loadedNfp.value, build, src);
      }
    } else {
      AddRectangleSheets(context, info.quantity, info.width, info.height, src);
    }
  }

  /** The rectangle branch of InitialiseNest's sheet loop. */
  method AddRectangleSheets(context: NestingContext, quantity: int, w: real, h: real, src: int)
    modifies context`sheets
    ensures context.sheets == old(context.sheets) + RectangleSheets(quantity, |old(context.sheets)|, w, h, src)
  {
    ghost var before := context.sheets;
    var i := 0;
    while i < quantity
      invariant 0 <= i <= Times(quantity)
      invariant context.sheets == before + RectangleSheets(i, |before|, w, h, src)
    {
      var ns := NewRectangleSheet(|context.sheets| + 1, w, h);
      context.sheets := context.sheets + [ns.(source := src)];
      i := i + 1;
    }
  }

  /** The arbitrary-outline branch of InitialiseNest's sheet loop. */
  method AddArbitrarySheets(context: NestingContext, quantity: int, nfp: Nfp, build: Nfp -> seq<Point>, src: int)
    modifies context`sheets
    ensures context.sheets == old(context.sheets) + ArbitrarySheets(quantity, |old(context.sheets)|, build(ShiftToOrigin(nfp)), src)
  {
    ghost var before := context.sheets;
    ghost var outline := build(ShiftToOrigin(nfp));
    var i := 0;
    while i < quantity
      invariant 0 <= i <= Times(quantity)
      invariant context.sheets == before + ArbitrarySheets(i, |before|, outline, src)
    {
      var ns := NewArbitrarySheet(|context.sheets| + 1, nfp, build);
      context.sheets := context.sheets + [ns.(source := src)];
      i := i + 1;
    }
  }

  /** InitialiseNest's sheet loop. */
  method AddAllSheets(context: NestingContext, infos: seq<SheetLoadInfo>, load: string -> Option<Drawing>,
                      build: Nfp -> seq<Point>, signedArea: seq<Point> -> real) returns (ok: bool)
    requires context.sheets == []
    modifies context`sheets
    ensures ok == LoadSheets(infos, load, build, signedArea).complete
    ensures context.sheets == LoadSheets(infos, load, build, signedArea).items
  {
    for e := 0 to |infos|
      invariant LoadSheets(infos[..e], load, build, signedArea) == Loaded(context.sheets, true)
    {
      assert infos[..e + 1][..e] == infos[..e];
      ok := AddEntrySheets(context, infos[e], load, build, signedArea);
      if !ok {
        LoadSheetsStuck(infos, load, build, signedArea, e + 1);
        return;
      }
    }
    assert infos[..|infos|] == infos;
    ok := true;
  }

  /** Once an entry throws, the later entries change nothing. */
  lemma {:induction false} LoadSheetsStuck(infos: seq<SheetLoadInfo>, load: string -> Option<Drawing>,
                                           build: Nfp -> seq<Point>, signedArea: seq<Point> -> real, n: nat)
    requires n <= |infos| && !LoadSheets(infos[..n], load, build, signedArea).complete
    ensures LoadSheets(infos, load, build, signedArea) == LoadSheets(infos[..n], load, build, signedArea)
    decreases |infos| - n
  {
    if n < |infos| {
      assert infos[..n + 1][..n] == infos[..n];
      LoadSheetsStuck(infos, load, build, signedArea, n + 1);
    } else {
      assert infos[..n] == infos;
    }
  }

  /** Once a part entry throws, the later entries change nothing. */
  lemma {:induction false} LoadPartsStuck(infos: seq<DetailLoadInfo>, load: string -> Option<Drawing>, multiplier: int,
                                          signedArea: seq<Point> -> real, n: nat)
    requires n <= |infos| && !LoadParts(infos[..n], load, multiplier, signedArea).complete
    ensures LoadParts(infos, load, multiplier, signedArea) == LoadParts(infos[..n], load, multiplier, signedArea)
    decreases |infos| - n
  {
    if n < |infos| {
      assert infos[..n + 1][..n] == infos[..n];
      LoadPartsStuck(infos, load, multiplier, signedArea, n + 1);
    } else {
      assert infos[..n] == infos;
    }
  }

  /** One more entry: what LoadParts does with entry e after the entries before it. */
  lemma LoadPartsNext(infos: seq<DetailLoadInfo>, load: string -> Option<Drawing>, multiplier: int,
                      signedArea: seq<Point> -> real, e: nat)
    requires e < |infos|
    ensures |Included(infos[..e + 1])| == |Included(infos[..e])| + (if infos[e].isIncluded then 1 else 0)
    ensures !LoadParts(infos[..e], load, multiplier, signedArea).complete || !infos[e].isIncluded ==>
      LoadParts(infos[..e + 1], load, multiplier, signedArea) == LoadParts(infos[..e], load, multiplier, signedArea)
    ensures LoadParts(infos[..e], load, multiplier, signedArea).complete && infos[e].isIncluded && load(infos[e].path).None? ==>
      LoadParts(infos[..e + 1], load, multiplier, signedArea) == Loaded(LoadParts(infos[..e], load, multiplier, signedArea).items, false)
    ensures LoadParts(infos[..e], load, multiplier, signedArea).complete && infos[e].isIncluded && load(infos[e].path).Some? ==>
      LoadParts(infos[..e + 1], load, multiplier, signedArea) ==
        Loaded(LoadParts(infos[..e], load, multiplier, signedArea).items +
               PartsOf(load(infos[e].path).value, |Included(infos[..e])|, infos[e], multiplier, signedArea), true)
  {
    assert infos[..e + 1][..e] == infos[..e];
  }

  /** InitialiseNest's part loop: the included entries, their Sources counted from 0. */
  method AddAllParts(context: NestingContext, infos: seq<DetailLoadInfo>, load: string -> Option<Drawing>, multiplier: int,
                     signedArea: seq<Point> -> real) returns (ok: bool)
    requires context.polygons == []
    modifies context`polygons
    ensures ok == LoadParts(infos, load, multiplier, signedArea).complete
    ensures context.polygons == LoadParts(infos, load, multiplier, signedArea).items
  {
    var src := 0;
    for e := 0 to |infos|
      invariant src == |Included(infos[..e])|
      invariant LoadParts(infos[..e], load, multiplier, signedArea) == Loaded(context.polygons, true)
    {
      LoadPartsNext(infos, load, multiplier, signedArea, e);
      var item := infos[e];
      if item.isIncluded {
        var d := load(item.path);
        if d.None? {
          LoadPartsStuck(infos, load, multiplier, signedArea, e + 1);
          return false;
        }
        var det := NewDetail(d.value);
        AddToPolygons(context, src, det, item, multiplier, signedArea);
        src := src + 1;
      }
    }
    assert infos[..|infos|] == infos;
    ok := true;
  }

  /**
   * InitialiseNest: the context is reset, the sheets are loaded and laid out
   * side by side, then the included parts are loaded. `ok` is false where an
   * exception escapes, leaving the context as far as the loading got.
   */
  method InitialiseNest(context: NestingContext, sheetInfos: seq<SheetLoadInfo>, detailInfos: seq<DetailLoadInfo>,
                        load: string -> Option<Drawing>, multiplier: int, build: Nfp -> seq<Point>,
                        signedArea: seq<Point> -> real) returns (ok: bool)
    requires context.state.Valid()
    modifies context`polygons, context`sheets, context`current, context.state`nestCount, context.state`totalNestTime,
      context.state`totalPlacementTime, context.state`lastNestTime, context.state`lastPlacementTime,
      context.state`generations, context.state`population, context.state`iterations, context.state`dllCallCounter,
      context.state`clipperCallCounter, context.state`isErrored, context.state`nfpPairCachePercentCached,
      context.state.topNestResults`items
    ensures context.current.None? && context.state.Valid() && context.state.topNestResults.items == []
    ensures context.state.TimesCleared() && context.state.CountersCleared()
    ensures ok <==> LoadSheets(sheetInfos, load, build, signedArea).complete &&
                    LoadParts(detailInfos, load, multiplier, signedArea).complete
    ensures !LoadSheets(sheetInfos, load, build, signedArea).complete ==>
      context.sheets == LoadSheets(sheetInfos, load, build, signedArea).items && context.polygons == []
    ensures LoadSheets(sheetInfos, load, build, signedArea).complete ==>
      context.sheets == Relocated(LoadSheets(sheetInfos, load, build, signedArea).items,
                                  SheetWidths(LoadSheets(sheetInfos, load, build, signedArea).items),
                                  |LoadSheets(sheetInfos, load, build, signedArea).items|) &&
      context.polygons == LoadParts(detailInfos, load, multiplier, signedArea).items
  {
    context.Reset();
    ok := AddAllSheets(context, sheetInfos, load, build, signedArea);
    if !ok {
      return;
    }
    context.ReorderSheets();
    ok := AddAllParts(context, detailInfos, load, multiplier, signedArea);
  }
}
