/**
 * One evaluation of a gene (`Background`): the outer NFPs of the gene's part
 * pairs through the pair map, the inner NFPs of every hole a part can fit
 * in, the keys recorded in the window cache, and finally the placement of
 * the gene on the sheets, stamped with the population index it was run for.
 */
module BackgroundRun {
  import opened Wrappers
  import opened Numeric
  import opened Geometry
  import opened CacheKeys
  import opened Results
  import opened PartPlacing
  import opened Placement
  import opened Minkowski
  import opened PairMap
  import opened RunState

  const DuplicateIds: string := "Parts must have unique Ids."

  /** `gene.FirstOrDefault(p => p.Part.Source == source)`: the first chromosome of that source. */
  function FirstWithSource(gene: seq<GenePart>, source: int): (r: Option<nat>)
    ensures r.Some? ==> r.value < |gene| && gene[r.value].part.source == source
    ensures r.Some? ==> forall k :: 0 <= k < r.value ==> gene[k].part.source != source
    ensures r.None? <==> forall k :: 0 <= k < |gene| ==> gene[k].part.source != source
  {
    if |gene| == 0 then Option.None
    else if gene[0].part.source == source then Some(0)
    else
      var rest := FirstWithSource(gene[1..], source);
      if rest.None? then Option.None else Some(rest.value + 1)
  }

  /** A hole can take the part only when it is strictly wider and strictly taller. */
  predicate Fits(hole: Nfp, part: Nfp)
  {
    BoundsOf(hole.points).width > BoundsOf(part.points).width &&
    BoundsOf(hole.points).height > BoundsOf(part.points).height
  }

  /** What one hole gives: its inner NFPs when the part fits it and the engine finds some. */
  function Contribution(hole: Nfp, part: Nfp, innerNfp: (Nfp, Nfp) -> Option<seq<Nfp>>): (r: seq<Nfp>)
    ensures !Fits(hole, part) ==> r == []
  {
    if Fits(hole, part) && innerNfp(hole, part).Some? && |innerNfp(hole, part).value| > 0
    then innerNfp(hole, part).value else []
  }

  /** The inner NFPs of all holes, hole after hole. */
  function InnerNfps(holes: seq<Nfp>, part: Nfp, innerNfp: (Nfp, Nfp) -> Option<seq<Nfp>>): seq<Nfp>
  {
    if |holes| == 0 then []
    else InnerNfps(holes[..|holes| - 1], part, innerNfp) + Contribution(holes[|holes| - 1], part, innerNfp)
  }

  /** The holes the part fits in, in order. */
  function FittingHoles(holes: seq<Nfp>, part: Nfp): (r: seq<Nfp>)
    ensures |r| <= |holes|
    ensures forall j :: 0 <= j < |r| ==> Fits(r[j], part)
  {
    if |holes| == 0 then []
    else
      var front := FittingHoles(holes[..|holes| - 1], part);
      if Fits(holes[|holes| - 1], part) then front + [holes[|holes| - 1]] else front
  }

  /** Only holes the part fits in contribute: dropping the others changes nothing. */
  lemma {:induction false} OnlyFittingHolesContribute(holes: seq<Nfp>, part: Nfp, innerNfp: (Nfp, Nfp) -> Option<seq<Nfp>>)
    ensures InnerNfps(holes, part, innerNfp) == InnerNfps(FittingHoles(holes, part), part, innerNfp)
  {
    if |holes| > 0 {
      var n := |holes| - 1;
      var front := FittingHoles(holes[..n], part);
      OnlyFittingHolesContribute(holes[..n], part, innerNfp);
      assert InnerNfps(holes, part, innerNfp) == InnerNfps(front, part, innerNfp) + Contribution(holes[n], part, innerNfp);
      if Fits(holes[n], part) {
        var fitting := front + [holes[n]];
        assert FittingHoles(holes, part) == fitting;
        assert fitting[..|front|] == front && fitting[|front|] == holes[n];
        assert InnerNfps(fitting, part, innerNfp) == InnerNfps(front, part, innerNfp) + Contribution(holes[n], part, innerNfp);
      } else {
        assert FittingHoles(holes, part) == front;
        assert Contribution(holes[n], part, innerNfp) == [];
      }
    }
  }

  /** When the part fits no hole, there are no inner NFPs. */
  lemma NoFittingHoleNoInnerNfp(holes: seq<Nfp>, part: Nfp, innerNfp: (Nfp, Nfp) -> Option<seq<Nfp>>)
    requires forall j :: 0 <= j < |holes| ==> !Fits(holes[j], part)
    ensures InnerNfps(holes, part, innerNfp) == []
  {
    OnlyFittingHolesContribute(holes, part, innerNfp);
    if |FittingHoles(holes, part)| > 0 {
      FittingHolesAreHoles(holes, part);
    }
  }

  /** Every fitting hole is one of the holes. */
  lemma {:induction false} FittingHolesAreHoles(holes: seq<Nfp>, part: Nfp)
    ensures forall h :: h in FittingHoles(holes, part) ==> h in holes
  {
    if |holes| > 0 {
      FittingHolesAreHoles(holes[..|holes| - 1], part);
      assert forall h :: h in holes[..|holes| - 1] ==> h in holes;
    }
  }

  /** The holes of the hole provider, each turned by the pair's first rotation. */
  function RotatedHoles(children: seq<Nfp>, degrees: real, turn: Turn): (r: seq<Nfp>)
    ensures |r| == |children|
    ensures forall j :: 0 <= j < |children| ==> r[j] == Rotate(children[j], degrees, Included, turn)
  {
    seq(|children|, j requires 0 <= j < |children| => Rotate(children[j], degrees, Included, turn))
  }

  /**
   * What ThenIterate makes of a pair's outer NFP: unchanged when the first
   * part has no holes, and otherwise with the inner NFPs of its turned holes
   * (for the second part, turned) as its holes. A source missing from the
   * gene is a null reference.
   */
  function IteratedNfp(nfp: Nfp, gene: seq<GenePart>, aSource: int, bSource: int, aRotation: real, bRotation: real,
                       turn: Turn, innerNfp: (Nfp, Nfp) -> Option<seq<Nfp>>): (r: Result<Nfp>)
    ensures FirstWithSource(gene, aSource).None? ==> r.Failure?
    ensures r.Success? ==> r.value.points == nfp.points
    ensures r.Success? && |gene[FirstWithSource(gene, aSource).value].part.children| == 0 ==> r.value == nfp
  {
    var holeProvider := FirstWithSource(gene, aSource);
    var partToFit := FirstWithSource(gene, bSource);
    if holeProvider.None? then Failure(NullReference)
    else if |gene[holeProvider.value].part.children| == 0 then Result.Success(nfp)
    else if partToFit.None? then Failure(NullReference)
    else
      var holes := RotatedHoles(gene[holeProvider.value].part.children, aRotation, turn);
      var partRotated := Rotate(gene[partToFit.value].part, bRotation, Included, turn);
      Result.Success(nfp.(children := InnerNfps(holes, partRotated, innerNfp)))
  }

  /** The window-cache entry for a processed pair. */
  function WindowKey(p: NfpPair, nfp: Nfp): (k: DbCacheKey)
    ensures k.a == Some(p.aSource) && k.b == Some(p.bSource)
    ensures k.aRotation == p.aRotation && k.bRotation == p.bRotation && k.nfp == Some([nfp])
  {
    NewCacheKeyWithNfps(Some(p.aSource), Some(p.bSource), p.aRotation, p.bRotation, [nfp])
  }

  /** The window keys name the pairs in order: their sources and rotations. */
  predicate KeysFor(keys: seq<DbCacheKey>, ps: seq<NfpPair>)
  {
    |keys| == |ps| &&
    forall i :: 0 <= i < |ps| ==>
      keys[i].a == Some(ps[i].aSource) && keys[i].b == Some(ps[i].bSource) &&
      keys[i].aRotation == ps[i].aRotation && keys[i].bRotation == ps[i].bRotation
  }

  lemma KeysForExtend(keys: seq<DbCacheKey>, ps: seq<NfpPair>, k: DbCacheKey, p: NfpPair)
    requires KeysFor(keys, ps)
    requires k.a == Some(p.aSource) && k.b == Some(p.bSource) && k.aRotation == p.aRotation && k.bRotation == p.bRotation
    ensures KeysFor(keys + [k], ps + [p])
  {
  }

  /** Every pair holds an NFP. */
  predicate AllHaveNfp(ps: seq<NfpPair>)
    reads ps
  {
    forall i :: 0 <= i < |ps| ==> ps[i].nfp.Some?
  }

  /** The times a finished placement is stamped with (stopwatch and clock readings). */
  datatype Timing = Timing(backgroundTime: int, placePartTime: int, createdAt: int)

  class Background {
    /** The keys inserted into the window cache, in insertion order. */
    var window: seq<DbCacheKey>
    const state: NestState
    const cache: NfpPairDictionary
    const service: MinkowskiSum
    const placementConfig: PlacementConfig
    const engine: Engine
    const turn: Turn
    /** NfpHelper.GetInnerNfp: null or the inner NFPs of a part in a hole. */
    const innerNfp: (Nfp, Nfp) -> Option<seq<Nfp>>
    /** The fitness a finished nest reports. */
    const fitnessOf: NestResult -> Double

    constructor (state: NestState, cache: NfpPairDictionary, service: MinkowskiSum, placementConfig: PlacementConfig,
                 engine: Engine, turn: Turn, innerNfp: (Nfp, Nfp) -> Option<seq<Nfp>>, fitnessOf: NestResult -> Double)
      ensures window == [] && this.state == state && this.cache == cache && this.service == service
      ensures this.placementConfig == placementConfig && this.engine == engine && this.turn == turn
      ensures this.innerNfp == innerNfp && this.fitnessOf == fitnessOf
    {
      window := [];
      this.state, this.cache, this.service := state, cache, service;
      this.placementConfig, this.engine, this.turn := placementConfig, engine, turn;
      this.innerNfp, this.fitnessOf := innerNfp, fitnessOf;
    }

    /**
     * ThenIterate: the pair's NFP gets the inner NFPs of the hole provider's
     * holes as its holes (when it has any), and a key for the pair is
     * recorded in the window cache in every successful case.
     */
    method ThenIterate(processed: NfpPair, gene: seq<GenePart>) returns (r: Result<()>)
      requires processed.nfp.Some?
      modifies processed`nfp, this`window
      ensures var it := IteratedNfp(old(processed.nfp).value, gene, processed.aSource, processed.bSource,
                                    processed.aRotation, processed.bRotation, turn, innerNfp);
        (it.Failure? ==> r.Failure? && processed.nfp == old(processed.nfp) && window == old(window)) &&
        (it.Success? ==> (r.Success? && processed.nfp == Some(it.value) &&
          window == old(window) + [WindowKey(processed, it.value)]))
      ensures processed.nfp.Some?
      ensures r.Success? ==> window == old(window) + [WindowKey(processed, processed.nfp.value)]
    {
      var holeProvider := FirstWithSource(gene, processed.aSource);
      var partToFit := FirstWithSource(gene, processed.bSource);
      if holeProvider.None? {
        return Failure(NullReference);
      }
      var children := gene[holeProvider.value].part.children;
      if |children| > 0 {
        var holes: seq<Nfp> := [];
        for j := 0 to |children|
          invariant holes == RotatedHoles(children[..j], processed.aRotation, turn)
        {
          holes := holes + [Rotate(children[j], processed.aRotation, Included, turn)];
        }
        assert children[..|children|] == children;
        if partToFit.None? {
          return Failure(NullReference);
        }
        var partRotated := Rotate(gene[partToFit.value].part, processed.bRotation, Included, turn);
        var cnfp := InnerNfpsOf(holes, partRotated);
        processed.nfp := Some(processed.nfp.value.(children := cnfp));
      }
      window := window + [WindowKey(processed, processed.nfp.value)];
      return Result.Success(());
    }

    /** The hole loop of ThenIterate: each hole the part fits in adds its inner NFPs. */
    method InnerNfpsOf(holes: seq<Nfp>, partRotated: Nfp) returns (cnfp: seq<Nfp>)
      ensures cnfp == InnerNfps(holes, partRotated, innerNfp)
    {
      var partBounds := BoundsOf(partRotated.points);
      cnfp := [];
      for j := 0 to |holes|
        invariant cnfp == InnerNfps(holes[..j], partRotated, innerNfp)
      {
        assert holes[..j + 1][..j] == holes[..j];
        var holeBounds := BoundsOf(holes[j].points);
        if holeBounds.width > partBounds.width && holeBounds.height > partBounds.height {
          var n := innerNfp(holes[j], partRotated);
          if n.Some? && |n.value| > 0 {
            cnfp := cnfp + n.value;
          }
        }
      }
      assert holes[..|holes|] == holes;
    }

    /**
     * SyncPlaceParts: places the gene on the sheets and stamps a result
     * with the individual's index; no result is passed on when placement
     * gives none. A gene whose part Ids repeat is refused.
     */
    method SyncPlaceParts(gene: seq<GenePart>, sheets: seq<Nfp>, originalSheets: seq<Nfp>, index: int, timing: Timing)
      returns (r: Result<Option<NestOutcome>>)
      requires |sheets| == |originalSheets|
      ensures !DistinctGeneIds(gene) ==> r == Failure(DuplicateIds)
      ensures DistinctGeneIds(gene) && |sheets| == 0 ==> r == Result.Success(Option.None)
      ensures r.Success? && r.value.Some? ==>
        var o := r.value.value;
        o.index == index && o.fitness == fitnessOf(o.result) && TotalPartsCount(o.result) == |gene| &&
        o.backgroundTime == timing.backgroundTime && o.placePartTime == timing.placePartTime &&
        o.createdAt == timing.createdAt
    {
      if !DistinctGeneIds(gene) {
        return Failure(DuplicateIds);
      }
      var worker := new PlacementWorker(sheets, originalSheets, gene, placementConfig, engine);
      var placed := worker.PlaceParts();
      if placed.Failure? {
        return Failure(placed.error);
      }
      if placed.value.None? {
        return Result.Success(Option.None);
      }
      var nestResult := placed.value.value;
      return Result.Success(Some(NestOutcome(nestResult, fitnessOf(nestResult), index,
        timing.backgroundTime, timing.placePartTime, timing.createdAt)));
    }

    /**
     * ThenDeepNest: every pair is iterated in order, each adding one key to
     * the window cache, and then the gene is placed once.
     */
    method ThenDeepNest(nfpPairs: seq<NfpPair>, gene: seq<GenePart>, sheets: seq<Nfp>, originalSheets: seq<Nfp>,
                        index: int, timing: Timing)
      returns (r: Result<Option<NestOutcome>>)
      requires |sheets| == |originalSheets|
      requires AllHaveNfp(nfpPairs)
      modifies nfpPairs, this`window
      ensures r.Success? ==> |window| == |old(window)| + |nfpPairs| && window[..|old(window)|] == old(window)
      ensures r.Success? ==> KeysFor(window[|old(window)|..], nfpPairs)
      ensures r.Success? && r.value.Some? ==> r.value.value.index == index && TotalPartsCount(r.value.value.result) == |gene|
      ensures !DistinctGeneIds(gene) ==> r.Failure?
    {
      ghost var window0 := window;
      ghost var added: seq<DbCacheKey> := [];
      for i := 0 to |nfpPairs|
        invariant window == window0 + added && KeysFor(added, nfpPairs[..i])
        invariant AllHaveNfp(nfpPairs)
      {
        ghost var w := window;
        var it := ThenIterate(nfpPairs[i], gene);
        if it.Failure? {
          return Failure(it.error);
        }
        KeysForExtend(added, nfpPairs[..i], window[|w|], nfpPairs[i]);
        added := added + [window[|w|]];
        assert nfpPairs[..i + 1] == nfpPairs[..i] + [nfpPairs[i]];
      }
      assert nfpPairs[..|nfpPairs|] == nfpPairs;
      assert window[|window0|..] == added;
      r := SyncPlaceParts(gene, sheets, originalSheets, index, timing);
    }

    /**
     * BackgroundStart: with no part pairs the gene is placed at once;
     * otherwise the pair map computes the pairs' outer NFPs first and
     * ThenDeepNest follows, so that the window cache gains one key per pair.
     */
    method BackgroundStart(gene: seq<GenePart>, index: int, sheets: seq<Nfp>, originalSheets: seq<Nfp>,
                           pairs: seq<NfpPair>, timing: Timing)
      returns (r: Result<Option<NestOutcome>>)
      requires |sheets| == |originalSheets|
      modifies pairs, cache`entries, cache`wasCached, cache`notCached, state`nfpPairCachePercentCached, this`window
      ensures |pairs| == 0 ==> (window == old(window) && unchanged(cache) &&
        state.nfpPairCachePercentCached == old(state.nfpPairCachePercentCached))
      ensures r.Success? ==> |window| == |old(window)| + |pairs| && window[..|old(window)|] == old(window)
      ensures r.Success? && |pairs| > 0 ==> state.nfpPairCachePercentCached == cache.PercentCached()
      ensures r.Success? && r.value.Some? ==> r.value.value.index == index && TotalPartsCount(r.value.value.result) == |gene|
      ensures Grows(old(cache.entries), cache.entries)
    {
      if |pairs| > 0 {
        var pmapWorker := new PmapWorker(pairs, cache, service, state, turn);
        var pmapResult := pmapWorker.PmapDeepNest();
        if pmapResult.Failure? {
          return Failure(pmapResult.error);
        }
        assert pmapResult.value == pairs;
        r := ThenDeepNest(pmapResult.value, gene, sheets, originalSheets, index, timing);
      } else {
        r := SyncPlaceParts(gene, sheets, originalSheets, index, timing);
      }
    }
  }
}
