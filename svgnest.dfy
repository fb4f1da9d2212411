/**
 * The nesting run (`SvgNest`): each pass numbers clones of the sheets,
 * hands every pending member of the population to a background evaluation
 * and files each returned nest (`ResponseProcessor`): the run's counters
 * are updated, the member gets its fitness, and a valid nest is offered to
 * the top results and labelled by how it fared. When every member has been
 * evaluated the genetic algorithm is asked for the next generation.
 *
 * The three parallel slices of a pass are run one after the other, and a
 * stop can only come from the run itself (an empty generation).
 */
module Nesting {
  import opened Wrappers
  import opened Numeric
  import opened Geometry
  import opened Results
  import opened TopResults
  import opened RunState
  import opened Genes
  import opened Procreation
  import PartPlacing
  import opened Placement
  import opened Minkowski
  import opened PairMap
  import opened BackgroundRun

  const ArgumentOutOfRange: string := "ArgumentOutOfRangeException"

  // ---------------------------------------------------------------------
  // Filing a returned nest
  // ---------------------------------------------------------------------

  /** The suffix ResponseProcessor reports a nest with. */
  datatype Label = Unlabelled | Rejected | Elite | Top | Duplicate | SubOptimal

  /** `List.IndexOf`: the first position holding x, or -1. */
  function IndexOf<T(==)>(s: seq<T>, x: T): (r: int)
    ensures r == -1 <==> x !in s
    ensures r != -1 ==> 0 <= r < |s| && s[r] == x && x !in s[..r]
  {
    if |s| == 0 then -1
    else if s[0] == x then 0
    else
      var rest := IndexOf(s[1..], x);
      assert s[1..][..if rest == -1 then 0 else rest] == s[1..if rest == -1 then 1 else rest + 1];
      if rest == -1 then -1 else rest + 1
  }

  /** A nest is offered to the top results only when it is valid and uses a sheet. */
  predicate Accepted(o: NestOutcome)
  {
    IsValid(o.result, o.fitness) && |o.result.usedSheets| > 0
  }

  /**
   * The label of an accepted nest, given what TryAdd did: an added nest is
   * Elite when it ranks below the elite survivors in the list after it, Top
   * otherwise; a duplicate is Duplicate and a nest not good enough is
   * SubOptimal. A failing TryAdd fails.
   */
  function LabelOf(at: Attempt<NestOutcome>, o: NestOutcome, populationSize: int): (r: Result<Label>)
    ensures r.Failure? <==> at.result.Failure?
    ensures r.Success? ==> ((r.value == Elite || r.value == Top) <==> at.result.value == Added)
    ensures r.Success? ==> (r.value == Label.Duplicate <==> at.result.value == TryAddResult.Duplicate)
    ensures r.Success? ==> (r.value == SubOptimal <==> at.result.value == NotAdded)
  {
    match at.result
    case Failure(e) => Failure(e)
    case Success(Added) =>
      if IndexOf(at.items, o) < EliteSurvivors(populationSize) then Result.Success(Elite) else Result.Success(Top)
    case Success(Duplicate) => Result.Success(Label.Duplicate)
    case Success(NotAdded) => Result.Success(SubOptimal)
  }

  /** An entry found where the payload was placed, and nowhere before it, is its first position. */
  lemma IndexOfPlaced(after: seq<NestOutcome>, before: seq<NestOutcome>, o: NestOutcome, i: nat)
    requires Placed(after, before, o, i)
    requires forall k :: 0 <= k < i ==> Score(before[k]) < Score(o)
    ensures IndexOf(after, o) == i
  {
    assert after[i] == o;
    forall k | 0 <= k < i
      ensures after[..i][k] != o
    {
      assert after[k] == before[k];
    }
  }

  /**
   * A nest is labelled Elite exactly when TryAdd added it at a rank below
   * the elite survivors: the list's IndexOf finds it at its insertion point.
   */
  lemma EliteRank(items: seq<NestOutcome>, o: NestOutcome, populationSize: int, topDiversity: real)
    requires MaxCapacity(populationSize).Success? && |items| <= MaxCapacity(populationSize).value
    ensures var at := TryAddOutcome(items, o, Score, populationSize, topDiversity);
      LabelOf(at, o, populationSize) == Result.Success(Elite) <==>
        at.result == Result.Success(Added) && InsertionPoint(items, o, Score) < EliteSurvivors(populationSize)
  {
    var at := TryAddOutcome(items, o, Score, populationSize, topDiversity);
    if at.result == Result.Success(Added) {
      TryAddInserts(items, o, Score, populationSize, topDiversity);
      IndexOfPlaced(at.items, items, o, InsertionPoint(items, o, Score));
    }
  }

  /** A member waiting for evaluation: not being evaluated and without a fitness. */
  predicate IsPending(p: PopulationItem)
  {
    !p.processing && p.fitness == Unevaluated
  }

  /** Every member knows its own position. */
  predicate Indexed(pop: seq<PopulationItem>)
  {
    forall k :: 0 <= k < |pop| ==> pop[k].index == k
  }

  /** A nest for member k was filed at or after position `from` of the log, and the member holds its score. */
  ghost predicate ScoredIn(p: PopulationItem, k: int, log: seq<NestOutcome>, from: nat)
  {
    exists j :: from <= j < |log| && log[j].index == k && p.fitness == Score(log[j])
  }

  /**
   * What a pass leaves of a pending member: still marked as being evaluated
   * (no nest came back), or no longer being evaluated and holding the score
   * of a nest filed for it during the pass.
   */
  ghost predicate Handled(now: PopulationItem, before: PopulationItem, log: seq<NestOutcome>, from: nat)
  {
    now == before.(processing := true) ||
    (now.gene == before.gene && now.index == before.index && !now.processing &&
     ScoredIn(now, before.index, log, from))
  }

  /** A log that only grows keeps every nest filed in it. */
  lemma HandledKept(now: PopulationItem, before: PopulationItem, log: seq<NestOutcome>, log': seq<NestOutcome>, from: nat)
    requires Handled(now, before, log, from)
    requires |log| <= |log'| && log'[..|log|] == log
    ensures Handled(now, before, log', from)
  {
    if now != before.(processing := true) {
      var j :| from <= j < |log| && log[j].index == before.index && now.fitness == Score(log[j]);
      assert log'[j] == log'[..|log|][j];
    }
  }

  /** A nest filed from position `from` on is also filed from any earlier position on. */
  lemma HandledFrom(now: PopulationItem, before: PopulationItem, log: seq<NestOutcome>, from: nat, from': nat)
    requires Handled(now, before, log, from) && from' <= from
    ensures Handled(now, before, log, from')
  {
  }

  /** The log only grew: everything filed before is still there, in place. */
  ghost predicate Grown(log: seq<NestOutcome>, log0: seq<NestOutcome>)
  {
    |log0| <= |log| && log[..|log0|] == log0
  }

  /** Outside the pending members of lo … hi − 1 the population is as it was. */
  ghost predicate Untouched(pop: seq<PopulationItem>, pop0: seq<PopulationItem>, lo: int, hi: int)
  {
    |pop| == |pop0| &&
    forall k :: 0 <= k < |pop0| && !(lo <= k < hi && IsPending(pop0[k])) ==> pop[k] == pop0[k]
  }

  /** Every member of lo … hi − 1 that was pending has been handled. */
  ghost predicate AllHandled(pop: seq<PopulationItem>, pop0: seq<PopulationItem>, lo: int, hi: int,
                             log: seq<NestOutcome>, from: nat)
  {
    forall k :: 0 <= k < |pop| && k < |pop0| && lo <= k < hi && IsPending(pop0[k]) ==> Handled(pop[k], pop0[k], log, from)
  }

  /**
   * One step of a pass: when member i was handled and nothing else
   * changed, the handled range grows by one and the rest stays untouched.
   */
  lemma PassStep(pop: seq<PopulationItem>, pop': seq<PopulationItem>, pop0: seq<PopulationItem>, lo: int, i: int,
                 log: seq<NestOutcome>, log': seq<NestOutcome>, from: nat)
    requires 0 <= lo <= i < |pop0| == |pop| == |pop'|
    requires Untouched(pop, pop0, lo, i) && AllHandled(pop, pop0, lo, i, log, from)
    requires forall k :: 0 <= k < |pop| && k != i ==> pop'[k] == pop[k]
    requires Grown(log', log)
    requires IsPending(pop0[i]) ==> Handled(pop'[i], pop0[i], log', from)
    requires !IsPending(pop0[i]) ==> pop'[i] == pop[i]
    ensures Untouched(pop', pop0, lo, i + 1) && AllHandled(pop', pop0, lo, i + 1, log', from)
  {
    forall k | 0 <= k < |pop'| && k < |pop0| && lo <= k < i + 1 && IsPending(pop0[k])
      ensures Handled(pop'[k], pop0[k], log', from)
    {
      if k < i {
        HandledKept(pop'[k], pop0[k], log, log', from);
      }
    }
  }

  /**
   * After a pass over positions lo … hi − 1, a member there is still
   * pending only if the nest filed for it scored as unevaluated.
   */
  ghost predicate SettledIn(pop: seq<PopulationItem>, lo: int, hi: int, log: seq<NestOutcome>, from: nat)
  {
    forall k :: 0 <= k < |pop| && lo <= k < hi && IsPending(pop[k]) ==> ScoredIn(pop[k], k, log, from)
  }

  /** A handled member is no longer pending, unless its nest scored as unevaluated. */
  lemma HandledSettles(pop: seq<PopulationItem>, pop0: seq<PopulationItem>, lo: int, hi: int, log: seq<NestOutcome>, from: nat)
    requires Indexed(pop0) && Untouched(pop, pop0, lo, hi) && AllHandled(pop, pop0, lo, hi, log, from)
    ensures SettledIn(pop, lo, hi, log, from)
  {
  }

  /** Settled members stay settled while they are left alone and the log only grows. */
  lemma SettledKept(pop: seq<PopulationItem>, pop': seq<PopulationItem>, lo: int, hi: int,
                    log: seq<NestOutcome>, log': seq<NestOutcome>, from: nat)
    requires SettledIn(pop, lo, hi, log, from)
    requires |pop| == |pop'| && forall k :: 0 <= k < |pop| && lo <= k < hi ==> pop'[k] == pop[k]
    requires |log| <= |log'| && log'[..|log|] == log
    ensures SettledIn(pop', lo, hi, log', from)
  {
    forall k | 0 <= k < |pop'| && lo <= k < hi && IsPending(pop'[k])
      ensures ScoredIn(pop'[k], k, log', from)
    {
      var j :| from <= j < |log| && log[j].index == k && pop[k].fitness == Score(log[j]);
      assert log'[j] == log'[..|log|][j];
    }
  }

  /** Two settled ranges side by side are one settled range. */
  lemma SettledJoin(pop: seq<PopulationItem>, lo: int, mid: int, hi: int, log: seq<NestOutcome>, from: nat)
    requires SettledIn(pop, lo, mid, log, from) && SettledIn(pop, mid, hi, log, from)
    ensures SettledIn(pop, lo, hi, log, from)
  {
  }

  /**
   * Three slices handled one after the other leave the whole population
   * settled: each slice settles its own members and leaves the others
   * alone while the log only grows.
   */
  lemma Settle(pop0: seq<PopulationItem>, pop1: seq<PopulationItem>, pop2: seq<PopulationItem>, pop3: seq<PopulationItem>,
               log0: seq<NestOutcome>, log1: seq<NestOutcome>, log2: seq<NestOutcome>, log3: seq<NestOutcome>,
               end1: int, end2: int)
    requires 0 <= end1 <= end2 <= |pop0| && Indexed(pop0)
    requires Untouched(pop1, pop0, 0, end1) && AllHandled(pop1, pop0, 0, end1, log1, |log0|)
    requires Untouched(pop2, pop1, end1, end2) && AllHandled(pop2, pop1, end1, end2, log2, |log1|)
    requires Untouched(pop3, pop2, end2, |pop0|) && AllHandled(pop3, pop2, end2, |pop0|, log3, |log2|)
    requires Grown(log1, log0) && Grown(log2, log1) && Grown(log3, log2)
    ensures SettledIn(pop3, 0, |pop3|, log3, |log0|)
  {
    assert Indexed(pop1) && Indexed(pop2);
    HandledSettles(pop1, pop0, 0, end1, log1, |log0|);
    HandledSettles(pop2, pop1, end1, end2, log2, |log1|);
    HandledSettles(pop3, pop2, end2, |pop0|, log3, |log2|);
    SettledFrom(pop2, end1, end2, log2, |log1|, |log0|);
    SettledFrom(pop3, end2, |pop0|, log3, |log2|, |log0|);
    SettledKept(pop1, pop2, 0, end1, log1, log2, |log0|);
    SettledKept(pop2, pop3, 0, end1, log2, log3, |log0|);
    SettledKept(pop2, pop3, end1, end2, log2, log3, |log0|);
    SettledJoin(pop3, 0, end1, end2, log3, |log0|);
    SettledJoin(pop3, 0, end2, |pop0|, log3, |log0|);
  }

  /** Settled from position `from` on is settled from any earlier position on. */
  lemma SettledFrom(pop: seq<PopulationItem>, lo: int, hi: int, log: seq<NestOutcome>, from: nat, from': nat)
    requires SettledIn(pop, lo, hi, log, from) && from' <= from
    ensures SettledIn(pop, lo, hi, log, from')
  {
  }

  // ---------------------------------------------------------------------
  // Sheet clones
  // ---------------------------------------------------------------------

  /**
   * One clone of a sheet for a pass: the sheet's tree cloned (only its
   * outline when either list's entry is not a sheet), numbered `sid`, with
   * the sheet's own source and holes, wrapped as a sheet with its holes.
   */
  function SheetClone(poly: Nfp, bothSheets: bool, sid: int): (r: Nfp)
    ensures r.id == sid && r.source == poly.source && r.kind == PlainSheet
    ensures |r.points| == |poly.points| && |r.children| == |poly.children|
    ensures forall i :: 0 <= i < |poly.points| ==> r.points[i].x == poly.points[i].x && r.points[i].y == poly.points[i].y
  {
    var clone := if bothSheets then CloneTree(poly) else CopyOf(CloneTree(poly), Excluded, PlainSheet);
    CopyOf(clone.(id := sid, source := poly.source, children := poly.children), Included, PlainSheet)
  }

  /** `count` clones of one sheet, numbered from `firstId` on. */
  function SheetCopies(poly: Nfp, bothSheets: bool, firstId: int, count: nat): (r: seq<Nfp>)
    ensures |r| == count
    ensures forall j :: 0 <= j < count ==> r[j] == SheetClone(poly, bothSheets, firstId + j)
  {
    seq(count, j requires 0 <= j < count => SheetClone(poly, bothSheets, firstId + j))
  }

  /**
   * The sheets of a pass (or, with `original`, the original sheets): each
   * sheet item contributes as many clones as its quantity, all numbered
   * consecutively across the items.
   */
  function ClonedSheets(sheets: seq<NestItem>, originals: seq<NestItem>, original: bool): seq<Nfp>
    requires |originals| == |sheets|
    decreases |sheets|
  {
    if |sheets| == 0 then []
    else
      var n := |sheets| - 1;
      var poly := if original then originals[n].polygon else sheets[n].polygon;
      var both := sheets[n].polygon.IsSheet() && originals[n].polygon.IsSheet();
      ClonedSheets(sheets[..n], originals[..n], original) +
        SheetCopies(poly, both, TotalQuantity(sheets[..n]), CopyCount(sheets[n].quantity))
  }

  /**
   * The clones are numbered 0 … (total quantity − 1) in order, and a sheet
   * and its original counterpart carry the same number.
   */
  lemma {:induction false} ClonedSheetsNumbered(sheets: seq<NestItem>, originals: seq<NestItem>, original: bool)
    requires |originals| == |sheets|
    ensures |ClonedSheets(sheets, originals, original)| == TotalQuantity(sheets)
    ensures forall k :: 0 <= k < TotalQuantity(sheets) ==> ClonedSheets(sheets, originals, original)[k].id == k
    decreases |sheets|
  {
    if |sheets| > 0 {
      var n := |sheets| - 1;
      ClonedSheetsNumbered(sheets[..n], originals[..n], original);
    }
  }

  // ---------------------------------------------------------------------
  // The slices of a parallel pass
  // ---------------------------------------------------------------------

  /** The bounds of the three slices: [0, n/3), [n/3, 2n/3) and [2n/3, n). */
  function SliceBounds(n: nat): (b: seq<int>)
    ensures |b| == 4
  {
    [0, n / 3, n * 2 / 3, n]
  }

  /** The slice an index is handed to. */
  function SliceOf(n: nat, i: int): (s: nat)
  {
    if i < n / 3 then 0 else if i < n * 2 / 3 then 1 else 2
  }

  /**
   * The three slices partition 0 … n − 1: they are ordered and contiguous
   * from 0 to n, and an index lies in a slice exactly when it is the one
   * SliceOf names.
   */
  lemma SlicesPartition(n: nat, i: int)
    requires 0 <= i < n
    ensures var b := SliceBounds(n);
      forall s :: 0 <= s < 3 ==> (b[s] <= i < b[s + 1] <==> s == SliceOf(n, i))
  {
    SliceBoundsOrdered(n);
  }

  /** The slice bounds run from 0 to n without going back. */
  lemma SliceBoundsOrdered(n: nat)
    ensures var b := SliceBounds(n);
      b[0] == 0 && b[0] <= b[1] <= b[2] <= b[3] && b[3] == n
  {
    assert n / 3 <= n * 2 / 3 by {
      assert (n / 3) * 3 <= n;
      assert (n / 3) * 2 * 3 <= n * 2;
    }
    assert n * 2 / 3 <= n;
  }

  // ---------------------------------------------------------------------
  // Pairs handed to the pair map
  // ---------------------------------------------------------------------

  /** What NfpPairsFactory produces for one pair of parts. */
  datatype PairSpec = PairSpec(a: Nfp, b: Nfp, aRotation: real, bRotation: real, aSource: int, bSource: int)

  /** The pair objects for a gene, one fresh pair per description, in order. */
  method MakePairs(specs: seq<PairSpec>) returns (pairs: seq<NfpPair>)
    ensures |pairs| == |specs|
    ensures forall k :: 0 <= k < |pairs| ==> fresh(pairs[k])
    ensures forall k :: 0 <= k < |pairs| ==>
      pairs[k].a == Some(specs[k].a) && pairs[k].b == Some(specs[k].b) && pairs[k].nfp.None? &&
      pairs[k].aRotation == specs[k].aRotation && pairs[k].bRotation == specs[k].bRotation &&
      pairs[k].aSource == specs[k].aSource && pairs[k].bSource == specs[k].bSource
  {
    pairs := [];
    for k := 0 to |specs|
      invariant |pairs| == k
      invariant forall m :: 0 <= m < k ==> fresh(pairs[m])
      invariant forall m :: 0 <= m < k ==>
        pairs[m].a == Some(specs[m].a) && pairs[m].b == Some(specs[m].b) && pairs[m].nfp.None? &&
        pairs[m].aRotation == specs[m].aRotation && pairs[m].bRotation == specs[m].bRotation &&
        pairs[m].aSource == specs[m].aSource && pairs[m].bSource == specs[m].bSource
    {
      var s := specs[k];
      var p := new NfpPair(s.a, s.b, s.aRotation, s.bRotation, s.aSource, s.bSource);
      pairs := pairs + [p];
    }
  }

  /** The parts and rotations of a gene, or nothing when a chromosome lacks its part. */
  function GenePartsOf(gene: seq<Chromosome>): (r: Option<seq<GenePart>>)
    reads gene
    ensures r.Some? <==> forall k :: 0 <= k < |gene| ==> gene[k].part.Some?
    ensures r.Some? ==> (|r.value| == |gene| &&
      forall k :: 0 <= k < |gene| ==> r.value[k] == GenePart(gene[k].part.value, gene[k].rotation))
  {
    if |gene| == 0 then Some([])
    else
      var rest := GenePartsOf(gene[1..]);
      if gene[0].part.None? || rest.None? then
        assert rest.None? ==> exists k :: 1 <= k < |gene| && gene[k].part.None? by {
          if rest.None? {
            var m :| 0 <= m < |gene[1..]| && gene[1..][m].part.None?;
            assert gene[m + 1].part.None?;
          }
        }
        Option.None
      else Some([GenePart(gene[0].part.value, gene[0].rotation)] + rest.value)
  }

  // ---------------------------------------------------------------------
  // The run
  // ---------------------------------------------------------------------

  class SvgNest {
    const state: NestState
    const procreant: Procreant
    const sheetsLocal: seq<NestItem>
    const originalSheetsLocal: seq<NestItem>
    const cache: NfpPairDictionary
    const service: MinkowskiSum
    const placementConfig: PartPlacing.PlacementConfig
    const engine: PartPlacing.Engine
    const turn: Turn
    const innerNfp: (Nfp, Nfp) -> Option<seq<Nfp>>
    const fitnessOf: NestResult -> Double
    /** NfpPairsFactory: the part pairs whose NFPs a gene needs. */
    const pairsOf: seq<GenePart> -> seq<PairSpec>
    var isStopped: bool
    /** Every nest filed so far, in order. */
    ghost var nests: seq<NestOutcome>

    /** The statistics and the population are consistent, and every member knows its position. */
    ghost predicate Valid()
      reads state.topNestResults, procreant, procreant.adam
    {
      state.Valid() && procreant.Valid() && Indexed(procreant.population)
    }

    constructor (state: NestState, procreant: Procreant, sheetsLocal: seq<NestItem>, originalSheetsLocal: seq<NestItem>,
                 cache: NfpPairDictionary, service: MinkowskiSum, placementConfig: PartPlacing.PlacementConfig, engine: PartPlacing.Engine,
                 turn: Turn, innerNfp: (Nfp, Nfp) -> Option<seq<Nfp>>, fitnessOf: NestResult -> Double,
                 pairsOf: seq<GenePart> -> seq<PairSpec>)
      ensures this.state == state && this.procreant == procreant
      ensures this.sheetsLocal == sheetsLocal && this.originalSheetsLocal == originalSheetsLocal
      ensures this.cache == cache && this.service == service && this.placementConfig == placementConfig
      ensures this.engine == engine && this.turn == turn && this.innerNfp == innerNfp
      ensures this.fitnessOf == fitnessOf && this.pairsOf == pairsOf
      ensures !isStopped && nests == []
    {
      this.state, this.procreant := state, procreant;
      this.sheetsLocal, this.originalSheetsLocal := sheetsLocal, originalSheetsLocal;
      this.cache, this.service, this.placementConfig := cache, service, placementConfig;
      this.engine, this.turn, this.innerNfp := engine, turn, innerNfp;
      this.fitnessOf, this.pairsOf := fitnessOf, pairsOf;
      isStopped, nests := false, [];
    }

    /** `Stop`: the run is marked stopped. */
    method Stop()
      modifies this`isStopped
      ensures isStopped
    {
      isStopped := true;
    }

    /**
     * `ResponseProcessor`: nothing for a missing nest. Otherwise the nest is
     * counted, its member stops being evaluated and takes its score, and
     * then an invalid or empty nest is counted as rejected while any other
     * is offered to the top results and labelled by the outcome. A nest
     * for a position outside the population fails after being counted.
     */
    method ResponseProcessor(payload: Option<NestOutcome>) returns (r: Result<Label>)
      requires Valid()
      modifies state`population, state`lastNestTime, state`lastPlacementTime, state`nestCount,
        state`totalPlacementTime, state`totalNestTime, state`rejected, state.topNestResults`items,
        procreant`population, this`nests
      ensures Valid()
      ensures payload.None? ==> (r == Result.Success(Unlabelled) && nests == old(nests) &&
        unchanged(state) && unchanged(state.topNestResults) && procreant.population == old(procreant.population))
      ensures payload.Some? ==> nests == old(nests) + [payload.value]
      ensures payload.Some? ==>
        state.population == old(state.population) + 1 && state.nestCount == old(state.nestCount) + 1 &&
        state.lastNestTime == payload.value.backgroundTime && state.lastPlacementTime == payload.value.placePartTime &&
        state.totalNestTime == old(state.totalNestTime) + payload.value.placePartTime &&
        state.totalPlacementTime == old(state.totalPlacementTime) + payload.value.backgroundTime
      ensures payload.Some? && !(0 <= payload.value.index < |old(procreant.population)|) ==>
        r == Failure(IndexOutOfRange) && procreant.population == old(procreant.population) &&
        state.rejected == old(state.rejected) && state.topNestResults.items == old(state.topNestResults.items)
      ensures payload.Some? && 0 <= payload.value.index < |old(procreant.population)| ==>
        var i := payload.value.index;
        procreant.population == old(procreant.population)[i := old(procreant.population)[i].(processing := false, fitness := Score(payload.value))]
      ensures payload.Some? && 0 <= payload.value.index < |old(procreant.population)| && !Accepted(payload.value) ==>
        r == Result.Success(Rejected) && state.rejected == old(state.rejected) + 1 &&
        state.topNestResults.items == old(state.topNestResults.items)
      ensures payload.Some? && 0 <= payload.value.index < |old(procreant.population)| && Accepted(payload.value) ==>
        var at := TryAddOutcome(old(state.topNestResults.items), payload.value, Score,
                                state.topNestResults.populationSize, state.topNestResults.topDiversity);
        state.rejected == old(state.rejected) && state.topNestResults.items == at.items &&
        r == LabelOf(at, payload.value, state.topNestResults.populationSize)
    {
      if payload.None? {
        return Result.Success(Unlabelled);
      }
      var o := payload.value;
      nests := nests + [o];
      state.RecordNest(o.backgroundTime, o.placePartTime);
      if !(0 <= o.index < |procreant.population|) {
        return Failure(IndexOutOfRange);
      }
      SetScore(o.index, Score(o));
      r := File(o);
    }

    /** The member's evaluation is over: it is no longer processing and holds the score. */
    method SetScore(i: int, fitness: real)
      requires Valid() && 0 <= i < |procreant.population|
      modifies procreant`population
      ensures Valid()
      ensures procreant.population == old(procreant.population)[i := old(procreant.population)[i].(processing := false, fitness := fitness)]
    {
      procreant.population := procreant.population[i := procreant.population[i].(processing := false, fitness := fitness)];
      assert forall k :: 0 <= k < |procreant.population| ==> procreant.population[k].gene == old(procreant.population)[k].gene;
    }

    /**
     * The last part of ResponseProcessor: an invalid or empty nest is
     * counted as rejected and the top results are left alone; any other is
     * offered to the top results and labelled by the outcome.
     */
    method File(o: NestOutcome) returns (r: Result<Label>)
      requires state.Valid()
      modifies state`rejected, state.topNestResults`items
      ensures state.Valid()
      ensures !Accepted(o) ==>
        r == Result.Success(Rejected) && state.rejected == old(state.rejected) + 1 &&
        state.topNestResults.items == old(state.topNestResults.items)
      ensures Accepted(o) ==>
        var at := TryAddOutcome(old(state.topNestResults.items), o, Score,
                                state.topNestResults.populationSize, state.topNestResults.topDiversity);
        state.rejected == old(state.rejected) && state.topNestResults.items == at.items &&
        r == LabelOf(at, o, state.topNestResults.populationSize)
    {
      if !(IsValid(o.result, o.fitness) && |o.result.usedSheets| > 0) {
        state.IncrementRejected();
        return Result.Success(Rejected);
      }
      var added := state.topNestResults.TryAdd(o);
      if added.Failure? {
        return Failure(added.error);
      }
      match added.value
      case Added =>
        if IndexOf(state.topNestResults.items, o) < EliteSurvivors(state.topNestResults.populationSize) {
          r := Result.Success(Elite);
        } else {
          r := Result.Success(Top);
        }
      case Duplicate =>
        r := Result.Success(Label.Duplicate);
      case NotAdded =>
        r := Result.Success(SubOptimal);
    }

    /**
     * One pending member of ProcessPopulation: it is marked as being
     * evaluated, its gene goes through a new background run, and the nest
     * that comes back is filed. A chromosome without its part fails.
     */
    method Evaluate(i: int, sheets: seq<Nfp>, originals: seq<Nfp>, timing: Timing, ghost from: nat) returns (r: Result<()>)
      requires Valid() && 0 <= i < |procreant.population| && IsPending(procreant.population[i])
      requires |sheets| == |originals| && from <= |nests|
      modifies procreant`population, state`population, state`lastNestTime, state`lastPlacementTime, state`nestCount,
        state`totalPlacementTime, state`totalNestTime, state`rejected, state`nfpPairCachePercentCached,
        state.topNestResults`items, cache`entries, cache`wasCached, cache`notCached, this`nests
      ensures Valid() && |procreant.population| == |old(procreant.population)|
      ensures forall k :: 0 <= k < |procreant.population| && k != i ==> procreant.population[k] == old(procreant.population)[k]
      ensures Grown(nests, old(nests))
      ensures r.Success? ==> Handled(procreant.population[i], old(procreant.population)[i], nests, from)
    {
      var individual := procreant.population[i];
      MarkProcessing(i);
      var outcome := RunBackground(individual.gene, individual.index, sheets, originals, timing);
      if outcome.Failure? {
        return Failure(outcome.error);
      }
      if outcome.value.Some? {
        var filed := ResponseProcessor(outcome.value);
        if filed.Failure? {
          return Failure(filed.error);
        }
        assert nests[|nests| - 1].index == i;
      }
      return Result.Success(());
    }

    /** `individual.Processing = true`: the member is marked as being evaluated. */
    method MarkProcessing(i: int)
      requires Valid() && 0 <= i < |procreant.population|
      modifies procreant`population
      ensures Valid()
      ensures procreant.population == old(procreant.population)[i := old(procreant.population)[i].(processing := true)]
    {
      procreant.population := procreant.population[i := procreant.population[i].(processing := true)];
      assert forall k :: 0 <= k < |procreant.population| ==> procreant.population[k].gene == old(procreant.population)[k].gene;
    }

    /**
     * The background run of one member: its gene's pairs go through a new
     * Background; the nest that comes back, if any, carries the member's
     * index. A chromosome without its part fails.
     */
    method RunBackground(gene: seq<Chromosome>, index: int, sheets: seq<Nfp>, originals: seq<Nfp>, timing: Timing)
      returns (r: Result<Option<NestOutcome>>)
      requires |sheets| == |originals|
      modifies state`nfpPairCachePercentCached, cache`entries, cache`wasCached, cache`notCached
      ensures GenePartsOf(gene).None? ==> r == Failure(NullReference)
      ensures r.Success? && r.value.Some? ==> r.value.value.index == index
    {
      var parts := GenePartsOf(gene);
      if parts.None? {
        return Failure(NullReference);
      }
      var pairs := MakePairs(pairsOf(parts.value));
      var background := new Background(state, cache, service, placementConfig, engine, turn, innerNfp, fitnessOf);
      r := background.BackgroundStart(parts.value, index, sheets, originals, pairs, timing);
    }

    /**
     * `ProcessPopulation`: a thread is counted in, the pending members of
     * positions start … end − 1 are evaluated, and the thread is counted out
     * when the loop ends (but not when an evaluation fails).
     */
    method ProcessPopulation(start: int, end: int, sheets: seq<Nfp>, originals: seq<Nfp>, timingOf: int -> Timing)
      returns (r: Result<()>)
      requires Valid() && 0 <= start <= end <= |procreant.population| && |sheets| == |originals|
      modifies procreant`population, state`population, state`lastNestTime, state`lastPlacementTime, state`nestCount,
        state`totalPlacementTime, state`totalNestTime, state`rejected, state`nfpPairCachePercentCached,
        state.topNestResults`items, cache`entries, cache`wasCached, cache`notCached, this`nests, state`threads
      ensures Valid() && Grown(nests, old(nests))
      ensures state.threads == old(state.threads) + (if r.Success? then 0 else 1)
      ensures old(isStopped) ==> r.Success? && procreant.population == old(procreant.population) && nests == old(nests)
      ensures Untouched(procreant.population, old(procreant.population), start, end)
      ensures r.Success? && !old(isStopped) ==>
        AllHandled(procreant.population, old(procreant.population), start, end, nests, |old(nests)|)
    {
      state.IncrementThreads();
      r := Pass(start, end, sheets, originals, timingOf);
      if r.Success? {
        state.DecrementThreads();
      }
    }

    /**
     * The loop of ProcessPopulation: every pending member of positions
     * start … end − 1 is evaluated in order, unless the run is stopped.
     * Members that were not pending are left alone.
     */
    method Pass(start: int, end: int, sheets: seq<Nfp>, originals: seq<Nfp>, timingOf: int -> Timing)
      returns (r: Result<()>)
      requires Valid() && 0 <= start <= end <= |procreant.population| && |sheets| == |originals|
      modifies procreant`population, state`population, state`lastNestTime, state`lastPlacementTime, state`nestCount,
        state`totalPlacementTime, state`totalNestTime, state`rejected, state`nfpPairCachePercentCached,
        state.topNestResults`items, cache`entries, cache`wasCached, cache`notCached, this`nests
      ensures Valid() && Grown(nests, old(nests))
      ensures isStopped ==> r.Success? && procreant.population == old(procreant.population) && nests == old(nests)
      ensures Untouched(procreant.population, old(procreant.population), start, end)
      ensures r.Success? && !isStopped ==>
        AllHandled(procreant.population, old(procreant.population), start, end, nests, |old(nests)|)
    {
      ghost var pop0, nests0 := procreant.population, nests;
      var i := start;
      while i < end
        invariant start <= i <= end
        invariant Valid() && Grown(nests, nests0)
        invariant isStopped ==> i == start && nests == nests0 && procreant.population == pop0
        invariant Untouched(procreant.population, pop0, start, i)
        invariant AllHandled(procreant.population, pop0, start, i, nests, |nests0|)
      {
        if isStopped {
          break;
        }
        ghost var pop, log := procreant.population, nests;
        var individual := procreant.population[i];
        if !isStopped && IsPending(individual) {
          var e := Evaluate(i, sheets, originals, timingOf(i), |nests0|);
          if e.Failure? {
            return Failure(e.error);
          }
        }
        PassStep(pop, procreant.population, pop0, start, i, log, nests, |nests0|);
        i := i + 1;
      }
      return Result.Success(());
    }

    /** A generation is finished when every member has a fitness. */
    static predicate Finished(pop: seq<PopulationItem>)
    {
      forall k :: 0 <= k < |pop| ==> pop[k].fitness != Unevaluated
    }

    /**
     * `LaunchWorkers`: nothing once the run is stopped. Otherwise a finished
     * generation is followed by the next one, the sheets are cloned and
     * numbered, and the population is processed, in three slices or in
     * one. Any failure marks the run as errored. After a pass that was not
     * stopped, a member is still pending only if its nest scored as
     * unevaluated.
     */
    method LaunchWorkers(useParallel: bool, draws: seq<ProcreationDraw>, timingOf: int -> Timing) returns (r: Result<()>)
      requires Valid()
      requires forall i :: 0 <= i < |draws| ==>
        |draws[i].first| == |procreant.adam| && |draws[i].second| == |procreant.adam|
      modifies procreant`population, state`population, state`lastNestTime, state`lastPlacementTime, state`nestCount,
        state`totalPlacementTime, state`totalNestTime, state`rejected, state`nfpPairCachePercentCached,
        state.topNestResults`items, cache`entries, cache`wasCached, cache`notCached, this`nests, state`threads,
        procreant`ancestors, procreant`terminations, (set c | c in procreant.adam)`rotation, this`isStopped,
        state`generations, state`isErrored
      ensures Valid()
      ensures old(isStopped) ==> (r == Result.Success(()) && procreant.population == old(procreant.population) &&
        nests == old(nests) && state.generations == old(state.generations))
      ensures !old(isStopped) ==>
        state.generations == old(state.generations) + (if Finished(old(procreant.population)) then 1 else 0)
      ensures r.Failure? ==> state.isErrored
      ensures r.Success? ==> state.threads == old(state.threads)
      ensures r.Success? && !isStopped ==> SettledIn(procreant.population, 0, |procreant.population|, nests, |old(nests)|)
    {
      if isStopped {
        return Result.Success(());
      }
      NextGenerationIfFinished(draws);
      r := RunPass(useParallel, timingOf);
    }

    /** The start of LaunchWorkers: a finished generation is followed by the next one. */
    method NextGenerationIfFinished(draws: seq<ProcreationDraw>)
      requires Valid()
      requires forall i :: 0 <= i < |draws| ==>
        |draws[i].first| == |procreant.adam| && |draws[i].second| == |procreant.adam|
      modifies procreant`population, procreant`ancestors, procreant`terminations,
        (set c | c in procreant.adam)`rotation, this`isStopped, state`generations, state`population
      ensures Valid()
      ensures state.generations == old(state.generations) + (if Finished(old(procreant.population)) then 1 else 0)
      ensures !Finished(old(procreant.population)) ==> procreant.population == old(procreant.population) && isStopped == old(isStopped)
    {
      var finished := procreant.IsCurrentGenerationFinished();
      if finished {
        InitialiseAnotherGeneration(draws);
      }
    }

    /**
     * The rest of LaunchWorkers: the sheets are cloned and numbered, and
     * the population is processed, in three slices or in one. Any failure
     * marks the run as errored.
     */
    method RunPass(useParallel: bool, timingOf: int -> Timing) returns (r: Result<()>)
      requires Valid()
      modifies procreant`population, state`population, state`lastNestTime, state`lastPlacementTime, state`nestCount,
        state`totalPlacementTime, state`totalNestTime, state`rejected, state`nfpPairCachePercentCached,
        state.topNestResults`items, cache`entries, cache`wasCached, cache`notCached, this`nests, state`threads, state`isErrored
      ensures Valid()
      ensures old(isStopped) ==> procreant.population == old(procreant.population) && nests == old(nests)
      ensures r.Failure? ==> state.isErrored
      ensures r.Success? ==> state.threads == old(state.threads)
      ensures r.Success? && !isStopped ==> SettledIn(procreant.population, 0, |procreant.population|, nests, |old(nests)|)
    {
      if |originalSheetsLocal| < |sheetsLocal| {
        state.SetIsErrored();
        return Failure(ArgumentOutOfRange);
      }
      var sheets, originals := CloneSheets();
      if useParallel {
        var failed;
        r, failed := ParallelPass(sheets, originals, timingOf);
      } else {
        ghost var pop0, from := procreant.population, |nests|;
        r := ProcessPopulation(0, |procreant.population|, sheets, originals, timingOf);
        if r.Success? && !isStopped {
          HandledSettles(procreant.population, pop0, 0, |pop0|, nests, from);
        }
      }
      if r.Failure? {
        state.SetIsErrored();
      }
    }

    /**
     * The parallel branch of LaunchWorkers, one slice after the other:
     * [0, n/3), [n/3, 2n/3) and [2n/3, n). Parallel.Invoke runs every slice
     * to its end before it reports a failure, so a failing slice does not
     * stop the others; each failing slice leaves its thread counted. The
     * failure reported is the first slice's that failed.
     */
    method ParallelPass(sheets: seq<Nfp>, originals: seq<Nfp>, timingOf: int -> Timing) returns (r: Result<()>, failed: nat)
      requires Valid() && |sheets| == |originals|
      modifies procreant`population, state`population, state`lastNestTime, state`lastPlacementTime, state`nestCount,
        state`totalPlacementTime, state`totalNestTime, state`rejected, state`nfpPairCachePercentCached,
        state.topNestResults`items, cache`entries, cache`wasCached, cache`notCached, this`nests, state`threads
      ensures Valid() && Grown(nests, old(nests))
      ensures failed <= 3 && (r.Success? <==> failed == 0)
      ensures state.threads == old(state.threads) + failed
      ensures old(isStopped) ==> r.Success? && procreant.population == old(procreant.population) && nests == old(nests)
      ensures r.Success? && !isStopped ==> SettledIn(procreant.population, 0, |procreant.population|, nests, |old(nests)|)
    {
      var n := |procreant.population|;
      SliceBoundsOrdered(n);
      var end1, end2 := n / 3, n * 2 / 3;
      ghost var pop0, log0 := procreant.population, nests;
      var r1 := ProcessPopulation(0, end1, sheets, originals, timingOf);
      ghost var pop1, log1 := procreant.population, nests;
      var r2 := ProcessPopulation(end1, end2, sheets, originals, timingOf);
      ghost var pop2, log2 := procreant.population, nests;
      var r3 := ProcessPopulation(end2, n, sheets, originals, timingOf);
      failed := (if r1.Failure? then 1 else 0) + (if r2.Failure? then 1 else 0) + (if r3.Failure? then 1 else 0);
      r := if r1.Failure? then r1 else if r2.Failure? then r2 else r3;
      if failed == 0 && !isStopped {
        Settle(pop0, pop1, pop2, procreant.population, log0, log1, log2, nests, end1, end2);
      }
    }

    /**
     * `InitialiseAnotherGeneration`: the next generation is generated; an
     * empty one stops the run. Either way the generation count goes up and
     * the population counter is cleared.
     */
    method InitialiseAnotherGeneration(draws: seq<ProcreationDraw>)
      requires Valid()
      requires forall i :: 0 <= i < |draws| ==>
        |draws[i].first| == |procreant.adam| && |draws[i].second| == |procreant.adam|
      modifies procreant`population, procreant`ancestors, procreant`terminations,
        (set c | c in procreant.adam)`rotation, this`isStopped, state`generations, state`population
      ensures Valid()
      ensures |procreant.population| == 0 ==> isStopped
      ensures |procreant.population| > 0 ==> isStopped == old(isStopped)
      ensures state.generations == old(state.generations) + 1 && state.population == 0
    {
      ghost var bred, admitted, origin := procreant.Generate(draws);
      if |procreant.population| == 0 {
        Stop();
      }
      state.IncrementGenerations();
      state.ResetPopulation();
    }

    /** The inner loop of the sheet cloning: `quantity` clones of one sheet and of its original. */
    static method SheetClones(poly: Nfp, originalPoly: Nfp, both: bool, firstId: int, quantity: int)
      returns (sheets: seq<Nfp>, originals: seq<Nfp>)
      ensures sheets == SheetCopies(poly, both, firstId, CopyCount(quantity))
      ensures originals == SheetCopies(originalPoly, both, firstId, CopyCount(quantity))
    {
      sheets, originals := [], [];
      var sid := firstId;
      var j := 0;
      while j < quantity
        invariant 0 <= j <= CopyCount(quantity) && sid == firstId + j
        invariant sheets == SheetCopies(poly, both, firstId, j)
        invariant originals == SheetCopies(originalPoly, both, firstId, j)
      {
        var clone := if both then CloneTree(poly) else CopyOf(CloneTree(poly), Excluded, PlainSheet);
        var originalClone := if both then CloneTree(originalPoly) else CopyOf(CloneTree(originalPoly), Excluded, PlainSheet);
        clone := clone.(id := sid, source := poly.source, children := poly.children);
        originalClone := originalClone.(id := sid, source := originalPoly.source, children := originalPoly.children);
        sheets := sheets + [CopyOf(clone, Included, PlainSheet)];
        originals := originals + [CopyOf(originalClone, Included, PlainSheet)];
        assert SheetCopies(poly, both, firstId, j + 1) == sheets;
        assert SheetCopies(originalPoly, both, firstId, j + 1) == originals;
        sid := sid + 1;
        j := j + 1;
      }
    }

    /**
     * The sheet-cloning loop of LaunchWorkers: every sheet item gives as
     * many clones as its quantity, numbered by a running id, and its
     * original counterpart gives as many with the same ids.
     */
    method CloneSheets() returns (sheets: seq<Nfp>, originals: seq<Nfp>)
      requires |originalSheetsLocal| >= |sheetsLocal|
      ensures sheets == ClonedSheets(sheetsLocal, originalSheetsLocal[..|sheetsLocal|], false)
      ensures originals == ClonedSheets(sheetsLocal, originalSheetsLocal[..|sheetsLocal|], true)
      ensures |sheets| == |originals| == TotalQuantity(sheetsLocal)
    {
      ghost var os := originalSheetsLocal[..|sheetsLocal|];
      sheets, originals := [], [];
      var sid := 0;
      for i := 0 to |sheetsLocal|
        invariant sid == TotalQuantity(sheetsLocal[..i])
        invariant sheets == ClonedSheets(sheetsLocal[..i], os[..i], false)
        invariant originals == ClonedSheets(sheetsLocal[..i], os[..i], true)
      {
        var poly := sheetsLocal[i].polygon;
        var originalPoly := originalSheetsLocal[i].polygon;
        var both := poly.IsSheet() && originalPoly.IsSheet();
        var more, moreOriginals := SheetClones(poly, originalPoly, both, sid, sheetsLocal[i].quantity);
        sheets, originals := sheets + more, originals + moreOriginals;
        sid := sid + CopyCount(sheetsLocal[i].quantity);
        assert sheetsLocal[..i + 1][..i] == sheetsLocal[..i];
        assert os[..i + 1][..i] == os[..i];
        assert os[i] == originalSheetsLocal[i];
      }
      assert sheetsLocal[..|sheetsLocal|] == sheetsLocal;
      assert os[..|sheetsLocal|] == os;
      ClonedSheetsNumbered(sheetsLocal, os, false);
      ClonedSheetsNumbered(sheetsLocal, os, true);
    }
  }
}
