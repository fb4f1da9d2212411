/**
 * The run's statistics (`NestState`): counters of nests, generations,
 * threads and engine calls, the time accumulators and their averages, the
 * error flag, and the collection of the best nests found so far.
 *
 * Times are whole milliseconds (C# `long`), and the averages use C#'s
 * truncating integer division. The counters are unbounded here.
 */
module RunState {
  import opened Wrappers
  import opened Numeric
  import opened Results
  import opened TopResults

  /**
   * A nest as it comes back from an evaluation: the result, its fitness
   * (a double, which may be NaN), the population index it was evaluated
   * for, the time spent in the whole background run and in placement,
   * and the moment it was created (as ticks).
   */
  datatype NestOutcome = NestOutcome(
    result: NestResult,
    fitness: Double,
    index: int,
    backgroundTime: int,
    placePartTime: int,
    createdAt: int)

  /**
   * The fitness a nest is ranked by: its value when it is a number. This
   * model ranks and stores a non-finite fitness as 0, where the program
   * keeps the raw double.
   */
  function Score(o: NestOutcome): (r: real)
    ensures o.fitness.Finite? ==> r == o.fitness.value
  {
    if o.fitness.Finite? then o.fitness.value else 0.0
  }

  /** The latest creation time among some nests (LINQ `Max`). */
  function Latest(items: seq<NestOutcome>): (t: int)
    requires |items| > 0
    ensures forall k :: 0 <= k < |items| ==> items[k].createdAt <= t
    ensures exists k :: 0 <= k < |items| && items[k].createdAt == t
  {
    if |items| == 1 then items[0].createdAt
    else
      var rest := Latest(items[1..]);
      assert forall k :: 1 <= k < |items| ==> items[k] == items[1..][k - 1];
      if items[0].createdAt >= rest then items[0].createdAt
      else
        ghost var j :| 0 <= j < |items[1..]| && items[1..][j].createdAt == rest;
        assert items[j + 1].createdAt == rest;
        rest
  }

  /**
   * `AverageNestTime` and `AveragePlacementTime`: a total over the nest
   * count, 0 before the first nest.
   */
  function Average(total: int, nestCount: nat): (r: int)
    ensures nestCount == 0 ==> r == 0
    ensures nestCount > 0 && total >= 0 ==> 0 <= r && r * nestCount <= total < (r + 1) * nestCount
    ensures nestCount > 0 && total < 0 ==> r <= 0 && (r - 1) * nestCount < total <= r * nestCount
  {
    if nestCount == 0 then 0 else Quotient(total, nestCount)
  }

  /** Averaging a total of n equal times of t over n nests gives t back. */
  lemma AverageOfEqualTimes(t: int, n: nat)
    requires n > 0
    ensures Average(t * n, n) == t
  {
    var r := Average(t * n, n);
    var d := t - r;
    assert d * n == t * n - r * n;
    if t >= 0 {
      assert 0 <= d * n < n;
    } else {
      assert 0 - n < d * n <= 0;
    }
    ScaledBelowUnit(d, n);
  }

  /** A whole number whose multiple by n lies strictly within (−n, n) is 0. */
  lemma ScaledBelowUnit(d: int, n: int)
    requires n > 0 && -n < d * n < n
    ensures d == 0
  {
  }

  class NestState {
    var clipperCallCounter: nat
    var dllCallCounter: nat
    var generations: nat
    var iterations: nat
    var population: nat
    var rejected: nat
    var threads: int
    var nestCount: nat
    var totalNestTime: int
    var lastPlacementTime: int
    var nfpPairCachePercentCached: Double
    var lastNestTime: int
    var totalPlacementTime: int
    var isErrored: bool
    const topNestResults: TopNestResultsCollection<NestOutcome>

    /** The top results are ranked by fitness, and sorted and bounded. */
    ghost predicate Valid()
      reads topNestResults
    {
      topNestResults.fitness == Score && topNestResults.Valid()
    }

    /** What Reset clears of the timing: the nest count and both time totals and last times. */
    predicate TimesCleared()
      reads this
    {
      nestCount == 0 && totalNestTime == 0 && totalPlacementTime == 0 &&
      lastNestTime == 0 && lastPlacementTime == 0
    }

    /**
     * What Reset clears of the rest: the generation, population and
     * iteration counters, both engine call counters, the error flag and
     * the cache share.
     */
    predicate CountersCleared()
      reads this
    {
      generations == 0 && population == 0 && iterations == 0 &&
      dllCallCounter == 0 && clipperCallCounter == 0 &&
      !isErrored && nfpPairCachePercentCached == Finite(0.0)
    }

    /** A new state: every counter at 0, no error, no top results. */
    constructor (populationSize: int, topDiversity: real)
      ensures Valid() && fresh(topNestResults)
      ensures topNestResults.items == []
      ensures topNestResults.populationSize == populationSize && topNestResults.topDiversity == topDiversity
      ensures TimesCleared() && CountersCleared() && rejected == 0 && threads == 0
    {
      clipperCallCounter, dllCallCounter, generations, iterations := 0, 0, 0, 0;
      population, rejected, threads, nestCount := 0, 0, 0, 0;
      totalNestTime, lastPlacementTime, lastNestTime, totalPlacementTime := 0, 0, 0, 0;
      nfpPairCachePercentCached, isErrored := Finite(0.0), false;
      topNestResults := new TopNestResultsCollection(Score, populationSize, topDiversity);
    }

    /** `AverageNestTime`: the nest-time total over the nest count. */
    function AverageNestTime(): (r: int)
      reads this
      ensures r == Average(totalNestTime, nestCount)
    {
      if nestCount == 0 then 0 else Quotient(totalNestTime, nestCount)
    }

    /** `AveragePlacementTime`: the placement-time total over the nest count. */
    function AveragePlacementTime(): (r: int)
      reads this
      ensures r == Average(totalPlacementTime, nestCount)
    {
      if nestCount == 0 then 0 else Quotient(totalPlacementTime, nestCount)
    }

    /** `LastTopFoundTimestamp`: nothing without top results, else the latest creation time among them. */
    function LastTopFoundTimestamp(): (r: Option<int>)
      reads this, topNestResults
      ensures r.None? <==> |topNestResults.items| == 0
      ensures r.Some? ==> exists k :: 0 <= k < |topNestResults.items| && topNestResults.items[k].createdAt == r.value
      ensures r.Some? ==> forall k :: 0 <= k < |topNestResults.items| ==> topNestResults.items[k].createdAt <= r.value
    {
      if topNestResults.Count() == 0 then None else Some(Latest(topNestResults.items))
    }

    /**
     * `Reset`: every counter, total and last time back to 0, no error, no
     * top results and no cache share; `rejected` and `threads` are kept.
     */
    method Reset()
      requires Valid()
      modifies this`nestCount, this`totalNestTime, this`totalPlacementTime, this`lastNestTime,
        this`lastPlacementTime, this`generations, this`population, this`iterations,
        this`dllCallCounter, this`clipperCallCounter, this`isErrored, this`nfpPairCachePercentCached,
        topNestResults`items
      ensures Valid() && topNestResults.items == []
      ensures TimesCleared() && CountersCleared()
    {
      ResetTimes();
      ResetCounters();
      topNestResults.Clear();
      SetNfpPairCachePercentCached(Finite(0.0));
    }

    method ResetTimes()
      modifies this`nestCount, this`totalNestTime, this`totalPlacementTime, this`lastNestTime, this`lastPlacementTime
      ensures TimesCleared()
    {
      nestCount, totalNestTime, totalPlacementTime := 0, 0, 0;
      lastNestTime, lastPlacementTime := 0, 0;
    }

    method ResetCounters()
      modifies this`generations, this`population, this`iterations, this`dllCallCounter,
        this`clipperCallCounter, this`isErrored
      ensures generations == 0 && population == 0 && iterations == 0
      ensures dllCallCounter == 0 && clipperCallCounter == 0 && !isErrored
    {
      generations, population, iterations := 0, 0, 0;
      dllCallCounter, clipperCallCounter, isErrored := 0, 0, false;
    }

    method IncrementPopulation()
      modifies this`population
      ensures population == old(population) + 1
    {
      population := population + 1;
    }

    method SetLastPlacementTime(placePartTime: int)
      modifies this`lastPlacementTime
      ensures lastPlacementTime == placePartTime
    {
      lastPlacementTime := placePartTime;
    }

    method SetLastNestTime(backgroundTime: int)
      modifies this`lastNestTime
      ensures lastNestTime == backgroundTime
    {
      lastNestTime := backgroundTime;
    }

    method IncrementNestCount()
      modifies this`nestCount
      ensures nestCount == old(nestCount) + 1
    {
      nestCount := nestCount + 1;
    }

    /** `IncrementNestTime`: as written, it adds to the placement-time total. */
    method IncrementNestTime(backgroundTime: int)
      modifies this`totalPlacementTime
      ensures totalPlacementTime == old(totalPlacementTime) + backgroundTime
    {
      totalPlacementTime := totalPlacementTime + backgroundTime;
    }

    /** `IncrementPlacementTime`: as written, it adds to the nest-time total. */
    method IncrementPlacementTime(placementTime: int)
      modifies this`totalNestTime
      ensures totalNestTime == old(totalNestTime) + placementTime
    {
      totalNestTime := totalNestTime + placementTime;
    }

    method IncrementGenerations()
      modifies this`generations
      ensures generations == old(generations) + 1
    {
      generations := generations + 1;
    }

    method ResetPopulation()
      modifies this`population
      ensures population == 0
    {
      population := 0;
    }

    method IncrementThreads()
      modifies this`threads
      ensures threads == old(threads) + 1
    {
      threads := threads + 1;
    }

    method DecrementThreads()
      modifies this`threads
      ensures threads == old(threads) - 1
    {
      threads := threads - 1;
    }

    method IncrementIterations()
      modifies this`iterations
      ensures iterations == old(iterations) + 1
    {
      iterations := iterations + 1;
    }

    method IncrementDllCallCounter()
      modifies this`dllCallCounter
      ensures dllCallCounter == old(dllCallCounter) + 1
    {
      dllCallCounter := dllCallCounter + 1;
    }

    method IncrementClipperCallCounter()
      modifies this`clipperCallCounter
      ensures clipperCallCounter == old(clipperCallCounter) + 1
    {
      clipperCallCounter := clipperCallCounter + 1;
    }

    method IncrementRejected()
      modifies this`rejected
      ensures rejected == old(rejected) + 1
    {
      rejected := rejected + 1;
    }

    /** `SetIsErrored`: the flag is raised; only Reset lowers it. */
    method SetIsErrored()
      modifies this`isErrored
      ensures isErrored
    {
      isErrored := true;
    }

    method SetNfpPairCachePercentCached(percentCached: Double)
      modifies this`nfpPairCachePercentCached
      ensures nfpPairCachePercentCached == percentCached
    {
      nfpPairCachePercentCached := percentCached;
    }

    /**
     * The bookkeeping ResponseProcessor does for every returned nest, in
     * its order. Because the two time accumulators are crossed, the
     * nest-time total grows by the placement time and the placement-time
     * total by the whole background time.
     */
    method RecordNest(backgroundTime: int, placePartTime: int)
      modifies this`population, this`lastNestTime, this`lastPlacementTime, this`nestCount,
        this`totalPlacementTime, this`totalNestTime
      ensures population == old(population) + 1 && nestCount == old(nestCount) + 1
      ensures lastNestTime == backgroundTime && lastPlacementTime == placePartTime
      ensures totalNestTime == old(totalNestTime) + placePartTime
      ensures totalPlacementTime == old(totalPlacementTime) + backgroundTime
    {
      IncrementPopulation();
      SetLastNestTime(backgroundTime);
      SetLastPlacementTime(placePartTime);
      IncrementNestCount();
      IncrementPlacementTime(placePartTime);
      IncrementNestTime(backgroundTime);
    }

    /** A thread started and finished leaves the thread count as it was. */
    method RunThread()
      modifies this`threads
      ensures threads == old(threads)
    {
      IncrementThreads();
      DecrementThreads();
    }
  }

  /**
   * After a reset and n nests that each took the same background and
   * placement times, AverageNestTime reports the placement time and
   * AveragePlacementTime the background time.
   */
  method CrossedAverages(s: NestState, n: nat, backgroundTime: int, placePartTime: int)
    requires s.Valid() && n > 0
    modifies s, s.topNestResults`items
    ensures s.AverageNestTime() == placePartTime
    ensures s.AveragePlacementTime() == backgroundTime
  {
    s.Reset();
    var i := 0;
    while i < n
      invariant 0 <= i <= n && s.nestCount == i
      invariant s.totalNestTime == placePartTime * i && s.totalPlacementTime == backgroundTime * i
    {
      s.RecordNest(backgroundTime, placePartTime);
      i := i + 1;
    }
    AverageOfEqualTimes(placePartTime, n);
    AverageOfEqualTimes(backgroundTime, n);
  }
}
