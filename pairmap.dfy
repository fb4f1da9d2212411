/**
 * The pair map: for every pair of parts at given rotations, the outer
 * no-fit polygon, taken from a process-wide cache when it holds the pair
 * and otherwise computed by the Minkowski service and remembered.
 */
module PairMap {
  import opened Wrappers
  import opened Numeric
  import opened Geometry
  import opened Minkowski
  import opened RunState

  /**
   * NfpPairEqualityComparerKey: the rotated outlines, rotations, sources and
   * pick of a lookup. Two keys are the same lookup when they are equal as
   * values.
   */
  datatype PairKey = PairKey(
    a: seq<Point>,
    b: seq<Point>,
    aRotation: real,
    bRotation: real,
    aSource: int,
    bSource: int,
    pick: MinkowskiSumPick)

  const DuplicateKey: string := "ArgumentException: An item with the same key has already been added."

  /** The pair cache, with a count of its hits and of its misses. */
  class NfpPairDictionary {
    var entries: map<PairKey, Nfp>
    var wasCached: nat
    var notCached: nat

    constructor ()
      ensures entries == map[] && wasCached == 0 && notCached == 0
    {
      entries, wasCached, notCached := map[], 0, 0;
    }

    /**
     * The share of lookups that were hits, as a double: undefined (NaN)
     * before the first lookup, otherwise between 0 and 1.
     */
    function PercentCached(): (r: Double)
      reads this
      ensures r.NaN? <==> wasCached + notCached == 0
      ensures r.Finite? <==> wasCached + notCached > 0
      ensures r.Finite? ==> 0.0 <= r.value <= 1.0
      ensures r.Finite? ==> r.value * (wasCached + notCached) as real == wasCached as real
      ensures r.Finite? ==> (r.value == 1.0 <==> notCached == 0) && (r.value == 0.0 <==> wasCached == 0)
    {
      var total := (wasCached + notCached) as real;
      var d := Divide(wasCached as real, total);
      if d.Finite? then
        assert d.value * total == wasCached as real;
        RatioInUnit(wasCached as real, total, d.value);
        d
      else d
    }

    /**
     * TryGetValue: a hit exactly when the key is present, with the stored
     * polygon; each lookup counts as exactly one hit or one miss.
     */
    method TryGetValue(a: seq<Point>, b: seq<Point>, aRotation: real, bRotation: real,
                       aSource: int, bSource: int, pick: MinkowskiSumPick)
      returns (found: bool, value: Option<Nfp>)
      modifies this`wasCached, this`notCached
      ensures var key := PairKey(a, b, aRotation, bRotation, aSource, bSource, pick);
        (found <==> key in entries) &&
        (found ==> value == Some(entries[key])) && (!found ==> value == Option.None)
      ensures found ==> wasCached == old(wasCached) + 1 && notCached == old(notCached)
      ensures !found ==> notCached == old(notCached) + 1 && wasCached == old(wasCached)
    {
      var key := PairKey(a, b, aRotation, bRotation, aSource, bSource, pick);
      if key in entries {
        found, value := true, Some(entries[key]);
        wasCached := wasCached + 1;
      } else {
        found, value := false, Option.None;
        notCached := notCached + 1;
      }
    }

    /** Add: a new key is stored; a key that is already present is refused and nothing changes. */
    method Add(a: seq<Point>, b: seq<Point>, aRotation: real, bRotation: real,
               aSource: int, bSource: int, pick: MinkowskiSumPick, value: Nfp)
      returns (r: Result<()>)
      modifies this`entries
      ensures var key := PairKey(a, b, aRotation, bRotation, aSource, bSource, pick);
        (key in old(entries) ==> r == Failure(DuplicateKey) && entries == old(entries)) &&
        (key !in old(entries) ==> r == Success(()) && entries == old(entries)[key := value])
    {
      var key := PairKey(a, b, aRotation, bRotation, aSource, bSource, pick);
      if key in entries {
        return Failure(DuplicateKey);
      }
      entries := entries[key := value];
      return Success(());
    }
  }

  /** A quotient of a part by a larger positive whole lies in [0, 1], at its ends only at the ends. */
  lemma RatioInUnit(part: real, total: real, q: real)
    requires 0.0 <= part <= total && total > 0.0 && q * total == part
    ensures 0.0 <= q <= 1.0
    ensures (q == 1.0 <==> part == total) && (q == 0.0 <==> part == 0.0)
  {
  }

  /** After a new key is added, looking it up is a hit that gives the stored polygon. */
  method AddThenLookup(d: NfpPairDictionary, k: PairKey, value: Nfp) returns (found: bool, got: Option<Nfp>)
    requires k !in d.entries
    modifies d`entries, d`wasCached, d`notCached
    ensures found && got == Some(value)
    ensures d.wasCached == old(d.wasCached) + 1 && d.notCached == old(d.notCached)
  {
    var added := d.Add(k.a, k.b, k.aRotation, k.bRotation, k.aSource, k.bSource, k.pick, value);
    found, got := d.TryGetValue(k.a, k.b, k.aRotation, k.bRotation, k.aSource, k.bSource, k.pick);
  }

  /**
   * A pair of parts whose outer NFP is wanted: the two polygons (cleared once
   * processed), their rotations and sources, and the NFP once known.
   */
  class NfpPair {
    var a: Option<Nfp>
    var b: Option<Nfp>
    const aRotation: real
    const bRotation: real
    const aSource: int
    const bSource: int
    var nfp: Option<Nfp>

    constructor (a: Nfp, b: Nfp, aRotation: real, bRotation: real, aSource: int, bSource: int)
      ensures this.a == Some(a) && this.b == Some(b) && nfp == Option.None
      ensures this.aRotation == aRotation && this.bRotation == bRotation
      ensures this.aSource == aSource && this.bSource == bSource
    {
      this.a, this.b, nfp := Some(a), Some(b), Option.None;
      this.aRotation, this.bRotation := aRotation, bRotation;
      this.aSource, this.bSource := aSource, bSource;
    }
  }

  /**
   * The cache key of a pair: both polygons turned by their rotations,
   * holes left out, and the largest-area pick.
   */
  function KeyOfPair(a: Nfp, b: Nfp, aRotation: real, bRotation: real, aSource: int, bSource: int, turn: Turn): (k: PairKey)
    ensures k.a == RotatePoints(a.points, aRotation, turn) && k.b == RotatePoints(b.points, bRotation, turn)
    ensures k.aRotation == aRotation && k.bRotation == bRotation && k.aSource == aSource && k.bSource == bSource
    ensures k.pick == Largest
  {
    PairKey(Rotate(a, aRotation, Excluded, turn).points, Rotate(b, bRotation, Excluded, turn).points,
            aRotation, bRotation, aSource, bSource, Largest)
  }

  /** Pairs with the same outlines, rotations and sources share one cache entry, whatever their holes. */
  lemma KeyIgnoresHoles(a: Nfp, b: Nfp, aRotation: real, bRotation: real, aSource: int, bSource: int, turn: Turn,
                        holesA: seq<Nfp>, holesB: seq<Nfp>)
    ensures KeyOfPair(a.(children := holesA), b.(children := holesB), aRotation, bRotation, aSource, bSource, turn)
         == KeyOfPair(a, b, aRotation, bRotation, aSource, bSource, turn)
  {
  }

  /** PmapWorker: computes the outer NFP of every pair, through the shared cache. */
  class PmapWorker {
    const pairs: seq<NfpPair>
    const cache: NfpPairDictionary
    const service: MinkowskiSum
    const state: NestState
    const turn: Turn
    /** How many times the Minkowski service has been asked. */
    ghost var serviceCalls: nat

    constructor (pairs: seq<NfpPair>, cache: NfpPairDictionary, service: MinkowskiSum, state: NestState, turn: Turn)
      ensures this.pairs == pairs && this.cache == cache && this.service == service
      ensures this.state == state && this.turn == turn && serviceCalls == 0
    {
      this.pairs, this.cache, this.service, this.state, this.turn := pairs, cache, service, state, turn;
      serviceCalls := 0;
    }

    /**
     * Process: a pair already in the cache takes the cached NFP and the
     * service is not asked; otherwise the service computes it and it is
     * stored under the pair's key. Either way the pair loses its polygons,
     * keeps the NFP, and is itself the result. A pair already processed
     * (its polygons gone) or a failing service call is an error.
     */
    method Process(pair: NfpPair) returns (r: Result<NfpPair>)
      modifies pair`a, pair`b, pair`nfp, cache`entries, cache`wasCached, cache`notCached, this`serviceCalls
      ensures old(pair.a).None? || old(pair.b).None? ==>
        r.Failure? && unchanged(pair, cache) && serviceCalls == old(serviceCalls)
      ensures old(pair.a).Some? && old(pair.b).Some? ==>
        var key := KeyOfPair(old(pair.a).value, old(pair.b).value, pair.aRotation, pair.bRotation,
                             pair.aSource, pair.bSource, turn);
        (key in old(cache.entries) ==>
          r == Success(pair) && pair.nfp == Some(old(cache.entries)[key]) &&
          cache.entries == old(cache.entries) && serviceCalls == old(serviceCalls)) &&
        (key !in old(cache.entries) ==>
          var computed := ClosedOuterNfp(service.engine, key.a, key.b, Largest);
          serviceCalls == old(serviceCalls) + 1 &&
          (computed.Failure? ==> r == Failure(computed.error) && cache.entries == old(cache.entries)) &&
          (computed.Success? ==> (r == Success(pair) && pair.nfp == Some(computed.value) &&
            cache.entries == old(cache.entries)[key := computed.value])))
      ensures r.Success? ==> r.value == pair && Processed(pair)
      ensures r.Success? ==> old(pair.a).Some? && old(pair.b).Some?
      ensures Grows(old(cache.entries), cache.entries)
      ensures cache.wasCached + cache.notCached == old(cache.wasCached + cache.notCached) + (if old(pair.a).Some? && old(pair.b).Some? then 1 else 0)
      ensures r.Failure? ==> pair.a == old(pair.a) && pair.b == old(pair.b) && pair.nfp == old(pair.nfp)
    {
      if pair.a.None? || pair.b.None? {
        return Failure(NullReference);
      }
      var pattern := Rotate(pair.a.value, pair.aRotation, Excluded, turn);
      var path := Rotate(pair.b.value, pair.bRotation, Excluded, turn);
      var found, cached := cache.TryGetValue(pattern.points, path.points, pair.aRotation, pair.bRotation,
                                             pair.aSource, pair.bSource, Largest);
      var clipperNfp: Nfp;
      if found {
        clipperNfp := cached.value;
      } else {
        serviceCalls := serviceCalls + 1;
        var computed := service.ClipperExecuteOuterNfp(pattern.points, path.points, Largest);
        if computed.Failure? {
          return Failure(computed.error);
        }
        clipperNfp := computed.value;
        var added := cache.Add(pattern.points, path.points, pair.aRotation, pair.bRotation,
                               pair.aSource, pair.bSource, Largest, clipperNfp);
      }
      pair.a, pair.b, pair.nfp := Option.None, Option.None, Some(clipperNfp);
      return Success(pair);
    }

    /**
     * PmapDeepNest: processes the pairs in order into a result list of the
     * same length whose entry i is pairs[i], each having given up its
     * polygons for its NFP, then publishes the cache's hit share to the nest
     * state. Nothing already in the cache is lost or replaced.
     */
    method PmapDeepNest() returns (r: Result<seq<NfpPair>>)
      modifies pairs, cache`entries, cache`wasCached, cache`notCached, this`serviceCalls,
        state`nfpPairCachePercentCached
      ensures r.Success? ==> |r.value| == |pairs| && (forall i :: 0 <= i < |pairs| ==> r.value[i] == pairs[i])
      ensures r.Success? ==> forall i :: 0 <= i < |pairs| ==> Processed(pairs[i])
      ensures r.Success? ==> cache.wasCached + cache.notCached == old(cache.wasCached + cache.notCached) + |pairs|
      ensures r.Success? ==> state.nfpPairCachePercentCached == cache.PercentCached()
      ensures Grows(old(cache.entries), cache.entries)
    {
      ghost var entries0 := cache.entries;
      ghost var lookups0 := cache.wasCached + cache.notCached;
      var ret: seq<NfpPair> := [];
      for i := 0 to |pairs|
        invariant |ret| == i && forall k :: 0 <= k < i ==> ret[k] == pairs[k]
        invariant forall k :: 0 <= k < i ==> Processed(pairs[k])
        invariant cache.wasCached + cache.notCached == lookups0 + i
        invariant Grows(entries0, cache.entries)
      {
        var done := Process(pairs[i]);
        if done.Failure? {
          return Failure(done.error);
        }
        ret := ret + [done.value];
      }
      state.SetNfpPairCachePercentCached(cache.PercentCached());
      return Success(ret);
    }
  }

  /** A processed pair: its polygons are gone and it holds its NFP. */
  predicate Processed(p: NfpPair)
    reads p
  {
    p.a.None? && p.b.None? && p.nfp.Some?
  }

  /** The cache only gains entries: every key keeps its polygon. */
  ghost predicate Grows(before: map<PairKey, Nfp>, after: map<PairKey, Nfp>)
  {
    forall k :: k in before ==> k in after && after[k] == before[k]
  }

  /**
   * Processing two pairs with the same polygons, rotations and sources asks
   * the Minkowski service at most once: the second is a cache hit.
   */
  method SecondPairIsCached(w: PmapWorker, p: NfpPair, q: NfpPair)
    requires p != q && p.a.Some? && p.b.Some? && q.a == p.a && q.b == p.b
    requires p.aRotation == q.aRotation && p.bRotation == q.bRotation
    requires p.aSource == q.aSource && p.bSource == q.bSource
    modifies p, q, w.cache, w
    ensures w.serviceCalls <= old(w.serviceCalls) + 1
  {
    var first := w.Process(p);
    if first.Success? {
      var second := w.Process(q);
      assert second.Success? && q.nfp == p.nfp;
    }
  }
}
