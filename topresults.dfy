/**
 * The best nests found so far: a list kept in ascending fitness order (lower
 * is better), bounded by a capacity derived from the population size. A new
 * result goes in front of the first entry that is at least as bad, unless it
 * is too close to that entry to count as a different nest; once the list is
 * over capacity its worst entry falls off the end.
 */
module TopResults {
  import opened Wrappers
  import opened Numeric
  import opened Sorting

  /** The smallest number of results kept for the user interface. */
  const UiSurvivorsMin: int := 20

  datatype TryAddResult = NotAdded | Added | Duplicate

  /** `EliteSurvivors`: a tenth of the population, but never fewer than twenty. */
  function EliteSurvivors(populationSize: int): (r: int)
    ensures r >= UiSurvivorsMin && r >= Quotient(populationSize, 10)
    ensures r == UiSurvivorsMin || r == Quotient(populationSize, 10)
  {
    MaxInt(Quotient(populationSize, 10), UiSurvivorsMin)
  }

  const CapacityError: string := "MaxCapacity is zero so no results will ever be captured."

  /**
   * `MaxCapacity`: a fifth of the population, but no fewer than the elite
   * survivors; it throws when a fifth of the population is not positive.
   */
  function MaxCapacity(populationSize: int): (r: Result<int>)
    ensures r.Success? <==> Quotient(populationSize * 2, 10) > 0
    ensures r.Success? ==> r.value >= EliteSurvivors(populationSize) && r.value >= Quotient(populationSize * 2, 10)
    ensures r.Success? ==> r.value == EliteSurvivors(populationSize) || r.value == Quotient(populationSize * 2, 10)
  {
    var result := Quotient(populationSize * 2, 10);
    if result <= 0 then Failure(CapacityError)
    else Success(MaxInt(result, EliteSurvivors(populationSize)))
  }

  /** A capacity, once there is one, is at least twenty. */
  lemma CapacityAtLeastTwenty(populationSize: int)
    requires MaxCapacity(populationSize).Success?
    ensures MaxCapacity(populationSize).value >= UiSurvivorsMin
  {
  }

  /**
   * `IsANovelNest`: against the best entry a result is new when the two
   * fitnesses differ at two decimal places; against any other entry when
   * they differ by more than the diversity fraction of the incumbent.
   */
  predicate IsANovelNest(payload: real, incumbent: real, index: int, topDiversity: real)
  {
    if index == 0 then RoundTo(incumbent, 2) != RoundTo(payload, 2)
    else Abs(incumbent - payload) > incumbent * topDiversity
  }

  /** The same fitness is never novel (for a non-negative diversity margin). */
  lemma SameFitnessNotNovel(fitness: real, index: int, topDiversity: real)
    requires index != 0 ==> fitness * topDiversity >= 0.0
    ensures !IsANovelNest(fitness, fitness, index, topDiversity)
  {
  }

  /** Against the best entry, fitnesses more than a hundredth apart are always novel. */
  lemma FarFromTopIsNovel(payload: real, incumbent: real)
    requires Abs(incumbent - payload) > 0.01
    ensures IsANovelNest(payload, incumbent, 0, 0.0)
  {
    assert Pow10(2) == 100.0;
    var a := RoundTo(incumbent, 2);
    var b := RoundTo(payload, 2);
    assert Abs(incumbent - a) <= 0.005 && Abs(payload - b) <= 0.005;
  }

  /** Beyond the best entry, novelty is exactly a difference above the diversity margin. */
  lemma NovelBeyondTop(payload: real, incumbent: real, index: int, topDiversity: real)
    requires index != 0
    ensures IsANovelNest(payload, incumbent, index, topDiversity) <==> Abs(incumbent - payload) > incumbent * topDiversity
  {
  }

  /** The first position whose fitness is not below the payload's. */
  function InsertionPoint<T>(items: seq<T>, payload: T, fitness: T -> real): (i: nat)
    ensures i <= |items|
    ensures forall k :: 0 <= k < i ==> fitness(items[k]) < fitness(payload)
    ensures i < |items| ==> fitness(items[i]) >= fitness(payload)
  {
    ScanFrom(items, payload, fitness, 0)
  }

  /** The scan of TryAdd from position j on. */
  function ScanFrom<T>(items: seq<T>, payload: T, fitness: T -> real, j: nat): (i: nat)
    requires j <= |items|
    ensures j <= i <= |items|
    ensures forall k :: j <= k < i ==> fitness(items[k]) < fitness(payload)
    ensures i < |items| ==> fitness(items[i]) >= fitness(payload)
    decreases |items| - j
  {
    if j == |items| || fitness(items[j]) >= fitness(payload) then j
    else ScanFrom(items, payload, fitness, j + 1)
  }

  /** The result of TryAdd and the list after it. */
  datatype Attempt<T> = Attempt(result: Result<TryAddResult>, items: seq<T>)

  /** `List.Insert`: x at position i, the rest moved up by one. */
  function InsertAt<T>(s: seq<T>, i: nat, x: T): (r: seq<T>)
    requires i <= |s|
    ensures |r| == |s| + 1 && r[i] == x
    ensures forall k :: 0 <= k < i ==> r[k] == s[k]
    ensures forall k :: i < k < |r| ==> r[k] == s[k - 1]
  {
    s[..i] + [x] + s[i..]
  }

  /**
   * TryAdd up to, but not including, the final capacity check: append,
   * insert, or report a duplicate or a result not good enough.
   */
  function Offered<T>(items: seq<T>, payload: T, fitness: T -> real, cap: Result<int>, topDiversity: real): (r: Attempt<T>)
  {
    if |items| == 0 then Attempt(Success(Added), [payload])
    else
      var i := InsertionPoint(items, payload, fitness);
      if i == |items| then
        if cap.Failure? then Attempt(Failure(cap.error), items)
        else if |items| < cap.value then Attempt(Success(Added), InsertAt(items, i, payload))
        else Attempt(Success(NotAdded), items)
      else if !IsANovelNest(fitness(payload), fitness(items[i]), i, topDiversity) then Attempt(Success(Duplicate), items)
      else Attempt(Success(Added), InsertAt(items, i, payload))
  }

  /**
   * `TryAdd`, read as a function of the list before it: the outcome and the
   * list after it. When the capacity cannot be computed the call throws,
   * after having inserted the payload on every path but the one that asks
   * for the capacity first.
   */
  function TryAddOutcome<T>(items: seq<T>, payload: T, fitness: T -> real, populationSize: int, topDiversity: real): (r: Attempt<T>)
  {
    var cap := MaxCapacity(populationSize);
    Trimmed(Offered(items, payload, fitness, cap, topDiversity), cap)
  }

  /** The final capacity check of TryAdd: it throws, or drops the worst entry of an overfull list. */
  function Trimmed<T>(grown: Attempt<T>, cap: Result<int>): (r: Attempt<T>)
    requires cap.Success? ==> cap.value > 0
  {
    if cap.Failure? then Attempt(Failure(cap.error), grown.items)
    else if |grown.items| > cap.value then Attempt(grown.result, grown.items[..|grown.items| - 1])
    else grown
  }

  /** TryAdd fails exactly when there is no capacity. */
  lemma TryAddFails<T>(items: seq<T>, payload: T, fitness: T -> real, populationSize: int, topDiversity: real)
    ensures TryAddOutcome(items, payload, fitness, populationSize, topDiversity).result.Failure? <==>
      Quotient(populationSize * 2, 10) <= 0
  {
  }

  /** The first result into an empty list is always added. */
  lemma TryAddEmpty<T>(payload: T, fitness: T -> real, populationSize: int, topDiversity: real)
    requires Quotient(populationSize * 2, 10) > 0
    ensures TryAddOutcome([], payload, fitness, populationSize, topDiversity) == Attempt(Success(Added), [payload])
  {
    CapacityAtLeastTwenty(populationSize);
  }

  /** A result that is not added, or is a duplicate, leaves the list as it was. */
  lemma TryAddUnchanged<T>(items: seq<T>, payload: T, fitness: T -> real, populationSize: int, topDiversity: real)
    requires MaxCapacity(populationSize).Success? && |items| <= MaxCapacity(populationSize).value
    ensures TryAddOutcome(items, payload, fitness, populationSize, topDiversity).result.Success?
    ensures TryAddOutcome(items, payload, fitness, populationSize, topDiversity).result.value != Added ==>
      TryAddOutcome(items, payload, fitness, populationSize, topDiversity).items == items
  {
    CapacityAtLeastTwenty(populationSize);
  }

  /**
   * `after` is `before` with `payload` at position i, every entry ahead of
   * it in place, every entry behind it moved up by one, and at most the
   * last old entry gone.
   */
  ghost predicate Placed<T>(after: seq<T>, before: seq<T>, payload: T, i: nat)
  {
    i < |after| && (|after| == |before| + 1 || |after| == |before|) &&
    after[i] == payload &&
    (forall k :: 0 <= k < i ==> after[k] == before[k]) &&
    (forall k :: i < k < |after| ==> after[k] == before[k - 1])
  }

  /**
   * An added result sits at its insertion point, behind every better entry
   * and ahead of the others, of which at most the worst was pushed out.
   */
  lemma TryAddInserts<T>(items: seq<T>, payload: T, fitness: T -> real, populationSize: int, topDiversity: real)
    requires MaxCapacity(populationSize).Success? && |items| <= MaxCapacity(populationSize).value
    requires TryAddOutcome(items, payload, fitness, populationSize, topDiversity).result == Success(Added)
    ensures Placed(TryAddOutcome(items, payload, fitness, populationSize, topDiversity).items,
      items, payload, InsertionPoint(items, payload, fitness))
  {
    var cap := MaxCapacity(populationSize);
    var i := InsertionPoint(items, payload, fitness);
    var grown := Offered(items, payload, fitness, cap, topDiversity);
    CapacityAtLeastTwenty(populationSize);
    OfferedAdded(items, payload, fitness, cap, topDiversity);
    var r := TryAddOutcome(items, payload, fitness, populationSize, topDiversity);
    if |grown.items| > cap.value {
      assert r.items == grown.items[..|items|];
    } else {
      assert r.items == grown.items;
    }
  }

  /** An added result is inserted at its insertion point. */
  lemma OfferedAdded<T>(items: seq<T>, payload: T, fitness: T -> real, cap: Result<int>, topDiversity: real)
    requires cap.Success? && cap.value >= 1
    requires Offered(items, payload, fitness, cap, topDiversity).result == Success(Added)
    ensures Offered(items, payload, fitness, cap, topDiversity).items == InsertAt(items, InsertionPoint(items, payload, fitness), payload)
    ensures |items| < cap.value || InsertionPoint(items, payload, fitness) < |items|
  {
    if |items| == 0 {
      assert InsertAt(items, 0, payload) == [payload];
    }
  }

  /** The list never holds more than the capacity. */
  lemma TryAddBounded<T>(items: seq<T>, payload: T, fitness: T -> real, populationSize: int, topDiversity: real)
    requires MaxCapacity(populationSize).Success? && |items| <= MaxCapacity(populationSize).value
    ensures |TryAddOutcome(items, payload, fitness, populationSize, topDiversity).items| <= MaxCapacity(populationSize).value
  {
    CapacityAtLeastTwenty(populationSize);
  }

  /** Inserting at the insertion point keeps the list ascending by fitness. */
  lemma InsertAtPointSorted<T>(items: seq<T>, payload: T, fitness: T -> real)
    requires SortedBy(items, fitness)
    ensures var i := InsertionPoint(items, payload, fitness);
      SortedBy(items[..i] + [payload] + items[i..], fitness)
  {
    var i := InsertionPoint(items, payload, fitness);
    var r := items[..i] + [payload] + items[i..];
    forall a, b | 0 <= a < b < |r|
      ensures fitness(r[a]) <= fitness(r[b])
    {
      if b < i {
        assert r[a] == items[a] && r[b] == items[b];
      } else if b == i {
        assert r[a] == items[a];
      } else if a < i {
        assert r[a] == items[a] && r[b] == items[b - 1];
      } else if a == i {
        assert r[b] == items[b - 1];
        assert fitness(items[i]) <= fitness(items[b - 1]);
      } else {
        assert r[a] == items[a - 1] && r[b] == items[b - 1];
      }
    }
  }

  /** Whatever TryAdd does, an ascending list stays ascending. */
  lemma TryAddSorted<T>(items: seq<T>, payload: T, fitness: T -> real, populationSize: int, topDiversity: real)
    requires SortedBy(items, fitness)
    ensures SortedBy(TryAddOutcome(items, payload, fitness, populationSize, topDiversity).items, fitness)
  {
    var i := InsertionPoint(items, payload, fitness);
    InsertAtPointSorted(items, payload, fitness);
    if |items| > 0 && i == |items| {
      assert items + [payload] == items[..i] + [payload] + items[i..];
    }
  }

  /**
   * The collection: the results, ascending by fitness, and the settings
   * that bound it.
   */
  class TopNestResultsCollection<T> {
    var items: seq<T>
    const fitness: T -> real
    const populationSize: int
    const topDiversity: real

    /** Ascending by fitness and, when there is a capacity, within it. */
    ghost predicate Valid()
      reads this
    {
      SortedBy(items, fitness) &&
      (MaxCapacity(populationSize).Success? ==> |items| <= MaxCapacity(populationSize).value)
    }

    constructor (fitness: T -> real, populationSize: int, topDiversity: real)
      ensures Valid()
      ensures items == [] && this.fitness == fitness
      ensures this.populationSize == populationSize && this.topDiversity == topDiversity
    {
      items := [];
      this.fitness := fitness;
      this.populationSize := populationSize;
      this.topDiversity := topDiversity;
    }

    function Count(): (r: nat)
      reads this
      ensures r == |items|
    {
      |items|
    }

    predicate IsEmpty()
      reads this
    {
      |items| == 0
    }

    /** `Top`: the best result, if there is one. */
    function Top(): (r: Option<T>)
      reads this
      ensures r.None? <==> IsEmpty()
      ensures r.Some? && SortedBy(items, fitness) ==>
        forall k :: 0 <= k < |items| ==> fitness(r.value) <= fitness(items[k])
    {
      if |items| == 0 then None else Some(items[0])
    }

    /** `Clear`: no results. */
    method Clear()
      modifies this`items
      ensures items == []
      ensures Valid()
    {
      items := [];
    }

    /**
     * `TryAdd`: finds the insertion point by a linear scan, then appends,
     * inserts, or reports a duplicate or a result not good enough, and
     * finally drops the worst entry if the list went over capacity.
     */
    method TryAdd(payload: T) returns (result: Result<TryAddResult>)
      requires Valid()
      modifies this`items
      ensures Attempt(result, items) == TryAddOutcome(old(items), payload, fitness, populationSize, topDiversity)
      ensures Valid()
    {
      ghost var before := items;
      var cap := MaxCapacity(populationSize);
      if |items| == 0 {
        items := [payload];
        result := Success(Added);
      } else {
        var i := 0;
        while i < |items| && fitness(items[i]) < fitness(payload)
          invariant 0 <= i <= |items|
          invariant forall k :: 0 <= k < i ==> fitness(items[k]) < fitness(payload)
        {
          i := i + 1;
        }
        assert i == InsertionPoint(items, payload, fitness);
        if i == |items| {
          if cap.Failure? {
            result := Failure(cap.error);
            TryAddSorted(before, payload, fitness, populationSize, topDiversity);
            return;
          }
          if |items| < cap.value {
            items := items + [payload];
            result := Success(Added);
          } else {
            result := Success(NotAdded);
          }
        } else if !IsANovelNest(fitness(payload), fitness(items[i]), i, topDiversity) {
          result := Success(Duplicate);
        } else {
          items := items[..i] + [payload] + items[i..];
          result := Success(Added);
        }
      }
      TryAddSorted(before, payload, fitness, populationSize, topDiversity);
      if cap.Failure? {
        result := Failure(cap.error);
        return;
      }
      TryAddBounded(before, payload, fitness, populationSize, topDiversity);
      if |items| > cap.value {
        items := items[..|items| - 1];
      }
    }
  }
}
