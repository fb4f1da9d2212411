/**
 * The genetic algorithm's driver (`Procreant`): it builds the first
 * generation from the parts, keeps a record of every gene it has produced,
 * and breeds each next generation by elitism, weighted selection,
 * single-point crossover and mutation. Every random draw is an input here:
 * `Random.NextDouble()` is a real in [0, 1), `Random.Next()` a natural.
 */
module Procreation {
  import opened Wrappers
  import opened Numeric
  import opened Geometry
  import opened Sorting
  import opened Genes

  /** The settings of the nesting configuration that the algorithm reads. */
  datatype GaConfig = GaConfig(
    populationSize: int,
    mutationRate: int,
    rotations: int,
    strictAngles: AnglesEnum)

  /**
   * A member of a generation: its gene, its fitness once a nest of it has
   * been evaluated, whether an evaluation is under way, and its position.
   */
  datatype PopulationItem = PopulationItem(
    gene: seq<Chromosome>,
    fitness: real,
    processing: bool,
    index: int)

  /** The fitness of a member whose nest has not been evaluated yet. */
  const Unevaluated: real := -1.0

  /** `new PopulationItem(gene)`: not evaluated, not being evaluated. */
  function NewItem(gene: seq<Chromosome>): (p: PopulationItem)
    ensures p.gene == gene && p.fitness == Unevaluated && !p.processing
  {
    PopulationItem(gene, Unevaluated, false, 0)
  }

  function Fitness(p: PopulationItem): real { p.fitness }

  /** One value of each random source the rotation choice may consult. */
  datatype RotationDraw = RotationDraw(next: nat, unit: real)

  /**
   * What Mutate draws at one position of the gene: the swap draw, the
   * reroll draw, and the rotation drawn if the reroll happens.
   */
  datatype MutationDraw = MutationDraw(swap: real, reroll: real, rotation: RotationDraw)

  /**
   * What one round of procreation draws: the male and female selections,
   * the crossover point, and the mutation draws of the two children.
   */
  datatype ProcreationDraw = ProcreationDraw(
    male: real,
    female: real,
    cut: real,
    first: seq<MutationDraw>,
    second: seq<MutationDraw>)

  predicate IsUnitDraw(d: real) { 0.0 <= d < 1.0 }

  // ---------------------------------------------------------------------
  // Rotation choice
  // ---------------------------------------------------------------------

  const StrictAsPreviewedAngles: seq<real> := [0.0, 180.0]
  const StrictRotate90Angles: seq<real> := [90.0, 270.0]

  /**
   * A part is held to a restriction when its own strict angle is that
   * restriction, or when it has none and the configuration's is.
   */
  function IsPartRotationRestricted(partAngle: AnglesEnum, configAngle: AnglesEnum, restriction: AnglesEnum): (r: bool)
    ensures partAngle != AnglesEnum.None ==> (r <==> partAngle == restriction)
    ensures partAngle == AnglesEnum.None ==> (r <==> restriction == AnglesEnum.None || configAngle == restriction)
  {
    partAngle == restriction || (partAngle == AnglesEnum.None && configAngle == restriction)
  }

  /**
   * `GetRandomRotation`: one of 0 and 180 for a part restricted to its
   * previewed orientation, one of 90 and 270 for a part restricted to
   * quarter turns, and otherwise a whole multiple of 360 / Rotations.
   */
  function RandomRotation(partAngle: AnglesEnum, config: GaConfig, draw: RotationDraw): real
    requires config.rotations != 0
  {
    if IsPartRotationRestricted(partAngle, config.strictAngles, AnglesEnum.AsPreviewed) then
      StrictAsPreviewedAngles[draw.next % |StrictAsPreviewedAngles|]
    else if IsPartRotationRestricted(partAngle, config.strictAngles, AnglesEnum.Rotate90) then
      StrictRotate90Angles[draw.next % |StrictRotate90Angles|]
    else
      StepAngle(config, ScaledIndex(draw.unit, config.rotations))
  }

  /** `Math.Floor(NextDouble() * n)`. */
  function ScaledIndex(u: real, n: int): int
  {
    (u * (n as real)).Floor
  }

  /** k steps of 360 / Rotations degrees. */
  function StepAngle(config: GaConfig, k: int): real
    requires config.rotations != 0
  {
    (k as real) * (FullTurn / (config.rotations as real))
  }

  /**
   * The step counts `ScaledIndex` can produce for a unit draw: 0 … n − 1 for
   * a positive n, and n … 0 for a negative one.
   */
  predicate IsStepIndex(n: int, k: int)
  {
    if n > 0 then 0 <= k < n else n <= k <= 0
  }

  /**
   * Which angles the rotation choice can produce, for each kind of part. A
   * positive Rotations gives one of its steps in [0, 360); a negative one
   * counts its steps backwards and lands in [0, 360], 360 included.
   */
  lemma RandomRotationValues(partAngle: AnglesEnum, config: GaConfig, draw: RotationDraw)
    requires config.rotations != 0 && IsUnitDraw(draw.unit)
    ensures var r := RandomRotation(partAngle, config, draw);
      var previewed := IsPartRotationRestricted(partAngle, config.strictAngles, AnglesEnum.AsPreviewed);
      var quarter := IsPartRotationRestricted(partAngle, config.strictAngles, AnglesEnum.Rotate90);
      (previewed ==> r == 0.0 || r == 180.0) &&
      (!previewed && quarter ==> r == 90.0 || r == 270.0) &&
      (!previewed && !quarter ==>
        (exists k :: IsStepIndex(config.rotations, k) && r == StepAngle(config, k)) &&
        0.0 <= r <= FullTurn && (config.rotations > 0 ==> r < FullTurn))
  {
    var previewed := IsPartRotationRestricted(partAngle, config.strictAngles, AnglesEnum.AsPreviewed);
    var quarter := IsPartRotationRestricted(partAngle, config.strictAngles, AnglesEnum.Rotate90);
    if !previewed && !quarter {
      var k := ScaledIndex(draw.unit, config.rotations);
      UnrestrictedRotation(partAngle, config, draw);
      ScaledFloor(draw.unit, config.rotations);
      StepAngleRange(config, k);
      assert IsStepIndex(config.rotations, k) && RandomRotation(partAngle, config, draw) == StepAngle(config, k);
    }
  }

  lemma UnrestrictedRotation(partAngle: AnglesEnum, config: GaConfig, draw: RotationDraw)
    requires config.rotations != 0
    requires !IsPartRotationRestricted(partAngle, config.strictAngles, AnglesEnum.AsPreviewed)
    requires !IsPartRotationRestricted(partAngle, config.strictAngles, AnglesEnum.Rotate90)
    ensures RandomRotation(partAngle, config, draw) == StepAngle(config, ScaledIndex(draw.unit, config.rotations))
  {
  }

  /** A unit draw scaled by n and rounded down is a step index of n. */
  lemma ScaledFloor(u: real, n: int)
    requires n != 0 && 0.0 <= u < 1.0
    ensures IsStepIndex(n, ScaledIndex(u, n))
  {
    if n > 0 {
      var m := n as real;
      MulNonNeg(m, u);
      MulStrict(m, u, 1.0);
    } else {
      var m := -n as real;
      MulNonNeg(m, u);
      MulStrict(m, u, 1.0);
      assert u * (n as real) == -(m * u);
    }
  }

  /** Every step index of Rotations is an angle in [0, 360], short of 360 when Rotations is positive. */
  lemma StepAngleRange(config: GaConfig, k: int)
    requires config.rotations != 0 && IsStepIndex(config.rotations, k)
    ensures 0.0 <= StepAngle(config, k) <= FullTurn
    ensures config.rotations > 0 ==> StepAngle(config, k) < FullTurn
  {
    var n := config.rotations as real;
    var kr := k as real;
    assert StepAngle(config, k) == FullTurn * (kr / n);
    if config.rotations > 0 {
      assert 0.0 <= kr / n < 1.0;
    } else {
      assert 0.0 <= kr / n <= 1.0;
    }
  }

  // ---------------------------------------------------------------------
  // Weighted selection
  // ---------------------------------------------------------------------

  /**
   * The upper end of the i-th band of the weighted selection over n
   * individuals: the first band is 1/n wide, band i + 1 is
   * 2 · (1/n) · ((n − i) / n) wide.
   */
  function BandUpper(n: nat, i: nat): real
    requires n >= 1
  {
    if i == 0 then 1.0 / (n as real)
    else BandUpper(n, i - 1) + BandWidth(n, i)
  }

  /** The width of band i ≥ 1. */
  function BandWidth(n: nat, i: nat): real
    requires n >= 1 && i >= 1
  {
    2.0 * (1.0 / (n as real)) * (((n - (i - 1)) as real) / (n as real))
  }

  function BandLower(n: nat, i: nat): real
    requires n >= 1
  {
    if i == 0 then 0.0 else BandUpper(n, i - 1)
  }

  /** The draw falls strictly inside band i. */
  predicate InBand(n: nat, i: nat, rand: real)
    requires n >= 1
  {
    BandLower(n, i) < rand < BandUpper(n, i)
  }

  /** The first band from position i on that holds the draw, or 0 when none does. */
  function FirstInBand(n: nat, rand: real, i: nat): (r: nat)
    requires n >= 1 && i <= n
    ensures r < n
    decreases n - i
  {
    if i == n then 0
    else if InBand(n, i, rand) then i
    else FirstInBand(n, rand, i + 1)
  }

  /**
   * `RandomWeightedIndividual`: the first individual whose band holds the
   * draw strictly inside it, and the first individual when none does.
   */
  method RandomWeightedIndividual(count: nat, rand: real) returns (pick: nat)
    requires count >= 1
    ensures pick == FirstInBand(count, rand, 0)
    ensures pick < count
    ensures pick > 0 ==> InBand(count, pick, rand)
    ensures forall i :: 0 <= i < pick ==> !InBand(count, i, rand)
    ensures pick == 0 ==> InBand(count, 0, rand) || forall i :: 0 <= i < count ==> !InBand(count, i, rand)
  {
    var lower := 0.0;
    var weight := 1.0 / (count as real);
    var upper := weight;
    var i := 0;
    while i < count
      invariant 0 <= i <= count
      invariant lower == BandLower(count, i) && upper == BandUpper(count, i)
      invariant forall k :: 0 <= k < i ==> !InBand(count, k, rand)
      invariant FirstInBand(count, rand, i) == FirstInBand(count, rand, 0)
    {
      if rand > lower && rand < upper {
        return i;
      }
      lower := upper;
      upper := upper + 2.0 * weight * (((count - i) as real) / (count as real));
      i := i + 1;
    }
    return 0;
  }

  /** Every band has a positive width. */
  lemma BandPositive(n: nat, i: nat)
    requires n >= 1 && i < n
    ensures BandLower(n, i) < BandUpper(n, i)
  {
    if i > 0 {
      WidthPositive(n, i);
    }
  }

  lemma WidthPositive(n: nat, i: nat)
    requires 1 <= i <= n
    ensures BandWidth(n, i) > 0.0
  {
    var a := 1.0 / (n as real);
    var b := ((n - (i - 1)) as real) / (n as real);
    MulPos(2.0, a);
    MulPos(2.0 * a, b);
  }

  /** The bands are laid out left to right: a later band starts where an earlier one ends or beyond. */
  lemma {:induction false} BandsAscend(n: nat, i: nat, j: nat)
    requires i < j < n
    ensures BandUpper(n, i) <= BandLower(n, j)
    decreases j
  {
    if i < j - 1 {
      BandsAscend(n, i, j - 1);
      BandPositive(n, j - 1);
    }
  }

  /** So a draw lies in at most one band, and the selection is well defined. */
  lemma BandsDisjoint(n: nat, i: nat, j: nat, rand: real)
    requires i < n && j < n && i != j && InBand(n, i, rand)
    ensures !InBand(n, j, rand)
  {
    if i < j { BandsAscend(n, i, j); } else { BandsAscend(n, j, i); }
  }

  /**
   * The bands are not the weights the comment promises: from two
   * individuals on, the second band is twice as wide as the first.
   */
  lemma SecondBandDoublesFirst(n: nat)
    requires n >= 2
    ensures BandUpper(n, 1) - BandLower(n, 1) == 2.0 * (BandUpper(n, 0) - BandLower(n, 0))
  {
    var w := 1.0 / (n as real);
    assert ((n - 0) as real) / (n as real) == 1.0;
  }

  /** In closed form, the bands of the first i + 1 individuals end at (n + 2·i·n − i·(i − 1)) / n². */
  lemma {:induction false} BandUpperClosed(n: nat, i: nat)
    requires n >= 1
    ensures BandUpper(n, i) * ((n * n) as real) == (n + 2 * i * n - i * (i - 1)) as real
  {
    var nn := (n * n) as real;
    var m := n as real;
    if i == 0 {
      assert (1.0 / m) * nn == m;
    } else {
      BandUpperClosed(n, i - 1);
      WidthScaled(n, i);
      assert BandUpper(n, i) * nn == BandUpper(n, i - 1) * nn + BandWidth(n, i) * nn;
    }
  }

  lemma WidthScaled(n: nat, i: nat)
    requires n >= 1 && i >= 1
    ensures BandWidth(n, i) * ((n * n) as real) == (2 * (n - (i - 1))) as real
  {
    var m := n as real;
    var d := (n - (i - 1)) as real;
    assert ((n * n) as real) == m * m;
    assert 2.0 * (1.0 / m) * (d / m) * (m * m) == 2.0 * d;
  }

  /**
   * From two individuals on, the bands together reach beyond 1, so the last
   * individuals' bands are cut short by the range of the draw.
   */
  lemma BandsOvershoot(n: nat)
    requires n >= 2
    ensures BandUpper(n, n - 1) > 1.0
  {
    BandUpperClosed(n, n - 1);
    OvershootCount(n);
    var u := BandUpper(n, n - 1);
    var nn := (n * n) as real;
    var t := n + 2 * (n - 1) * n - (n - 1) * ((n - 1) - 1);
    assert u * nn == t as real;
    assert t as real > nn;
    if u <= 1.0 {
      MulMonotone(nn, u, 1.0);
    }
  }

  lemma OvershootCount(n: nat)
    requires n >= 2
    ensures n + 2 * (n - 1) * n - (n - 1) * ((n - 1) - 1) > n * n
  {
    assert 2 * (n - 1) * n == 2 * (n * n) - 2 * n;
    assert (n - 1) * ((n - 1) - 1) == n * n - 3 * n + 2;
  }

  // ---------------------------------------------------------------------
  // Crossover
  // ---------------------------------------------------------------------

  /**
   * The crossover point: the draw clamped to [0.1, 0.9], scaled by the
   * gene's length less one, rounded half to even.
   */
  function CutPoint(r: real, length: int): int
  {
    RoundHalfEven(CrossoverScale(r, length))
  }

  function CrossoverScale(r: real, length: int): real
  {
    Min(Max(r, 0.1), 0.9) * ((length - 1) as real)
  }

  /** The crossover point lies inside the gene: from 0 to its length less one. */
  lemma CutPointRange(r: real, length: int)
    requires length >= 1
    ensures 0 <= CutPoint(r, length) <= length - 1
  {
    ScaleRange(r, length);
    RoundInRange(CrossoverScale(r, length), length - 1);
  }

  lemma ScaleRange(r: real, length: int)
    requires length >= 1
    ensures 0.0 <= CrossoverScale(r, length) <= (length - 1) as real
  {
    var c := Min(Max(r, 0.1), 0.9);
    var l := (length - 1) as real;
    if l > 0.0 {
      MulMonotone(l, c, 1.0);
      MulNonNeg(l, c);
    }
  }

  lemma RoundInRange(x: real, l: int)
    requires 0.0 <= x <= l as real
    ensures 0 <= RoundHalfEven(x) <= l
  {
  }

  /** `Take(count)`: how many elements a take of count keeps from a sequence of the given length. */
  function TakeCount(count: int, length: nat): (r: nat)
    ensures r <= length
    ensures 0 <= count <= length ==> r == count
  {
    if count <= 0 then 0 else if count > length then length else count
  }

  /**
   * How many of a parent's chromosomes a child of `Mate` inherits directly:
   * the rounded cut point, taken from a gene of the given length.
   */
  function CrossoverCount(cutDraw: real, length: nat): (r: nat)
    ensures r <= length
  {
    TakeCount(CutPoint(cutDraw, length), length)
  }

  /** The child gene of a crossover: the initiant's first c chromosomes, completed from the supplicant. */
  function Crossover(initiant: seq<Chromosome>, supplicant: seq<Chromosome>, c: nat): seq<Chromosome>
    reads initiant`part, supplicant`part
    requires c <= |initiant| && Parted(initiant) && Parted(supplicant)
  {
    assert forall x :: x in initiant[..c] ==> x in initiant;
    initiant[..c] + Missing(initiant[..c], supplicant)
  }

  // ---------------------------------------------------------------------
  // Mutation
  // ---------------------------------------------------------------------

  /** The chance, for each position, of a swap and of a reroll: MutationRate percent. */
  function MutationThreshold(config: GaConfig): real
  {
    0.01 * (config.mutationRate as real)
  }

  function SwapDraws(draws: seq<MutationDraw>): (r: seq<real>)
    ensures |r| == |draws| && forall k :: 0 <= k < |draws| ==> r[k] == draws[k].swap
  {
    seq(|draws|, k requires 0 <= k < |draws| => draws[k].swap)
  }

  /** The order of a mutated gene: the swaps made position by position. */
  function MutatedOrder(gene: seq<Chromosome>, draws: seq<MutationDraw>, config: GaConfig): (r: seq<Chromosome>)
    requires |draws| == |gene|
    ensures |r| == |gene|
  {
    SwapsUpTo(gene, SwapDraws(draws), MutationThreshold(config), |gene|)
  }

  /** A mutated gene is an ordering of the parent's chromosomes. */
  lemma MutatedMembers(gene: seq<Chromosome>, draws: seq<MutationDraw>, config: GaConfig)
    requires |draws| == |gene|
    ensures multiset(MutatedOrder(gene, draws, config)) == multiset(gene)
    ensures forall c :: c in MutatedOrder(gene, draws, config) ==> c in gene
  {
    var r := MutatedOrder(gene, draws, config);
    SwapsPermute(gene, SwapDraws(draws), MutationThreshold(config), |gene|);
    forall c | c in r
      ensures c in gene
    {
      assert c in multiset(r);
    }
  }

  /** Mutating keeps the chromosomes distinct and each holding its part. */
  lemma MutatedDistinct(gene: seq<Chromosome>, draws: seq<MutationDraw>, config: GaConfig)
    requires |draws| == |gene| && Parted(gene) && Distinct(gene)
    ensures Parted(MutatedOrder(gene, draws, config)) && Distinct(MutatedOrder(gene, draws, config))
  {
    MutatedMembers(gene, draws, config);
    PermutationKeepsDistinct(MutatedOrder(gene, draws, config), gene);
  }

  /**
   * The rotation, before mutation, of the chromosome that ends up at
   * position k of the mutated gene.
   */
  function RotationAfterSwaps(gene: seq<Chromosome>, draws: seq<MutationDraw>, config: GaConfig, k: nat): real
    reads gene
    requires |draws| == |gene| && k < |gene|
  {
    var order := MutatedOrder(gene, draws, config);
    MutatedMembers(gene, draws, config);
    assert order[k] in order;
    order[k].rotation
  }

  /**
   * The rotation each position of the mutated order ends with: a fresh
   * random rotation where the reroll draw falls under the threshold, and
   * the rotation it had otherwise.
   */
  function Rerolled(order: seq<Chromosome>, draws: seq<MutationDraw>, config: GaConfig): (r: seq<real>)
    reads order
    requires config.rotations != 0 && |draws| == |order| && Parted(order)
    ensures |r| == |order|
    ensures forall k :: 0 <= k < |order| ==>
      order[k] in order &&
      r[k] == (if draws[k].reroll < MutationThreshold(config)
        then RandomRotation(order[k].part.value.strictAngle, config, draws[k].rotation)
        else order[k].rotation)
  {
    seq(|order|, k reads order requires 0 <= k < |order| && order[k].part.Some? =>
      if draws[k].reroll < MutationThreshold(config)
      then RandomRotation(order[k].part.value.strictAngle, config, draws[k].rotation)
      else order[k].rotation)
  }

  /** Once the swap pass has gone past a position, that position no longer changes. */
  lemma {:induction false} SwapsSettled<T>(g: seq<T>, swapDraws: seq<real>, threshold: real, i: nat, n: nat)
    requires i <= n <= |g| && |swapDraws| == |g|
    ensures forall k :: 0 <= k < i ==> SwapsUpTo(g, swapDraws, threshold, n)[k] == SwapsUpTo(g, swapDraws, threshold, i)[k]
    decreases n
  {
    if i < n {
      var a := SwapsUpTo(g, swapDraws, threshold, n);
      var b := SwapsUpTo(g, swapDraws, threshold, n - 1);
      var c := SwapsUpTo(g, swapDraws, threshold, i);
      SwapsSettled(g, swapDraws, threshold, i, n - 1);
      SwapStepKeepsFront(g, swapDraws, threshold, n);
      forall k | 0 <= k < i
        ensures a[k] == c[k]
      {
        assert a[k] == b[k];
      }
    } else {
      assert i == n;
    }
  }

  /** Step n of the swap pass only touches positions n − 1 and n. */
  lemma SwapStepKeepsFront<T>(g: seq<T>, swapDraws: seq<real>, threshold: real, n: nat)
    requires 1 <= n <= |g| && |swapDraws| == |g|
    ensures forall k :: 0 <= k < n - 1 ==> SwapsUpTo(g, swapDraws, threshold, n)[k] == SwapsUpTo(g, swapDraws, threshold, n - 1)[k]
  {
  }

  /**
   * Step i of Mutate's swap pass: the order after it, and the chromosome it
   * leaves at position i for good.
   */
  lemma MutateStep(g: seq<Chromosome>, draws: seq<MutationDraw>, config: GaConfig, i: nat, clone: seq<Chromosome>)
    requires |draws| == |g| && i < |g|
    requires clone == SwapsUpTo(g, SwapDraws(draws), MutationThreshold(config), i)
    ensures var next := if draws[i].swap < MutationThreshold(config) && i + 1 < |g| then SwapAdjacent(clone, i) else clone;
      next == SwapsUpTo(g, SwapDraws(draws), MutationThreshold(config), i + 1) &&
      next[i] == MutatedOrder(g, draws, config)[i] && next[i] in g
  {
    var t := MutationThreshold(config);
    var next := SwapsUpTo(g, SwapDraws(draws), t, i + 1);
    SwapsSettled(g, SwapDraws(draws), t, i + 1, |g|);
    MutatedMembers(g, draws, config);
    assert next[i] == MutatedOrder(g, draws, config)[i];
    assert next[i] in MutatedOrder(g, draws, config);
  }

  /** Reordering keeps the elements distinct. */
  lemma PermutationKeepsDistinct<T>(a: seq<T>, b: seq<T>)
    requires multiset(a) == multiset(b) && Distinct(b)
    ensures Distinct(a)
  {
    DistinctCounts(b);
    forall i, j | 0 <= i < j < |a|
      ensures a[i] != a[j]
    {
      if a[i] == a[j] {
        TwiceCounted(a, i, j);
      }
    }
  }

  /** The second draw of a step of `Mutate`: maybe a new random rotation. */
  method Reroll(c: Chromosome, draw: MutationDraw, config: GaConfig)
    requires config.rotations != 0 && c.part.Some?
    modifies c`rotation
    ensures c.rotation == if draw.reroll < MutationThreshold(config)
      then RandomRotation(c.part.value.strictAngle, config, draw.rotation)
      else old(c.rotation)
  {
    if draw.reroll < MutationThreshold(config) {
      c.rotation := RandomRotation(c.part.value.strictAngle, config, draw.rotation);
    }
  }

  /**
   * The loop of `Mutate`: position by position, a swap with the next
   * position, then a reroll of the rotation of the chromosome now at the
   * position. The chromosome objects are shared with the parent gene.
   */
  method MutationPass(gene: seq<Chromosome>, draws: seq<MutationDraw>, config: GaConfig,
                      ghost order: seq<Chromosome>, ghost after: seq<real>) returns (clone: seq<Chromosome>)
    requires config.rotations != 0 && |draws| == |gene|
    requires order == MutatedOrder(gene, draws, config) && Distinct(order) && |after| == |order|
    requires forall k :: 0 <= k < |order| ==>
      order[k].part.Some? &&
      after[k] == (if draws[k].reroll < MutationThreshold(config)
        then RandomRotation(order[k].part.value.strictAngle, config, draws[k].rotation)
        else order[k].rotation)
    modifies gene`rotation
    ensures clone == order
    ensures forall k :: 0 <= k < |order| ==> order[k].rotation == after[k]
  {
    var n := |gene|;
    var threshold := MutationThreshold(config);
    ghost var swaps := SwapDraws(draws);
    clone := gene;
    for i := 0 to n
      invariant clone == SwapsUpTo(gene, swaps, threshold, i)
      invariant forall k :: 0 <= k < i ==> order[k].rotation == after[k]
      invariant forall k :: i <= k < n ==> order[k].rotation == old(order[k].rotation)
    {
      MutatedMembers(gene, draws, config);
      assert order[i] in gene;
      clone := MutateAt(gene, draws, config, order, after, i, clone);
      assert forall k :: 0 <= k < n && k != i ==> order[k] != order[i];
    }
  }

  /** Position i of `MutationPass`: the swap, then the reroll of the chromosome left at i. */
  method MutateAt(gene: seq<Chromosome>, draws: seq<MutationDraw>, config: GaConfig,
                  ghost order: seq<Chromosome>, ghost after: seq<real>, i: nat, clone: seq<Chromosome>)
    returns (next: seq<Chromosome>)
    requires config.rotations != 0 && |draws| == |gene| && i < |gene|
    requires order == MutatedOrder(gene, draws, config) && |after| == |order|
    requires order[i].part.Some? &&
      after[i] == (if draws[i].reroll < MutationThreshold(config)
        then RandomRotation(order[i].part.value.strictAngle, config, draws[i].rotation)
        else order[i].rotation)
    requires clone == SwapsUpTo(gene, SwapDraws(draws), MutationThreshold(config), i)
    modifies {order[i]}`rotation
    ensures next == SwapsUpTo(gene, SwapDraws(draws), MutationThreshold(config), i + 1)
    ensures order[i].rotation == after[i]
  {
    MutateStep(gene, draws, config, i, clone);
    next := if draws[i].swap < MutationThreshold(config) && i + 1 < |gene| then SwapAdjacent(clone, i) else clone;
    Reroll(next[i], draws[i], config);
  }

  // ---------------------------------------------------------------------
  // Generations and their signatures
  // ---------------------------------------------------------------------

  /** Every chromosome object some member of the generation holds. */
  function Members(items: seq<PopulationItem>): set<Chromosome>
  {
    set k, c | 0 <= k < |items| && c in items[k].gene :: c
  }

  lemma MemberOf(items: seq<PopulationItem>, k: nat)
    requires k < |items|
    ensures forall c :: c in items[k].gene ==> c in Members(items)
  {
  }

  predicate AllParted(items: seq<PopulationItem>)
    reads Members(items)
  {
    forall k :: 0 <= k < |items| ==> (MemberOf(items, k); Parted(items[k].gene))
  }

  /** The signature of each member, in order. */
  function SigsOf(items: seq<PopulationItem>): (r: seq<Signature>)
    reads Members(items)
    requires AllParted(items)
    ensures |r| == |items|
  {
    seq(|items|, k reads Members(items) requires 0 <= k < |items| && AllParted(items) =>
      MemberOf(items, k); SignatureOf(items[k].gene))
  }

  function Elements<T>(s: seq<T>): set<T>
  {
    set x | x in s
  }

  lemma SigsOfAll(items: seq<PopulationItem>)
    requires AllParted(items)
    ensures forall k :: 0 <= k < |items| ==> Parted(items[k].gene) && SigsOf(items)[k] == SignatureOf(items[k].gene)
  {
  }

  /** One step of TerminateClones: the next member is kept exactly when its signature is new. */
  lemma TerminateStep(source: seq<PopulationItem>, sigs: seq<Signature>, seen: set<Signature>, i: nat)
    requires |sigs| == |source| && i < |source|
    ensures Elements(sigs[..i + 1]) == Elements(sigs[..i]) + {sigs[i]}
    ensures sigs[i] in seen + Elements(sigs[..i]) ==>
      Pick(source, Kept(sigs[..i + 1], seen)) == Pick(source, Kept(sigs[..i], seen))
    ensures sigs[i] !in seen + Elements(sigs[..i]) ==>
      Pick(source, Kept(sigs[..i + 1], seen)) == Pick(source, Kept(sigs[..i], seen)) + [source[i]]
  {
    assert sigs[..i + 1][..i] == sigs[..i];
    assert sigs[..i + 1] == sigs[..i] + [sigs[i]];
  }

  /**
   * The positions TerminateClones keeps, given the signatures of its input
   * and the signatures seen before: each signature not seen before, at its
   * first occurrence.
   */
  function Kept(sigs: seq<Signature>, seen: set<Signature>): (r: seq<nat>)
    ensures |r| <= |sigs| && forall k :: 0 <= k < |r| ==> r[k] < |sigs|
  {
    if |sigs| == 0 then []
    else
      var n := |sigs| - 1;
      var prev := Kept(sigs[..n], seen);
      if sigs[n] in seen || sigs[n] in sigs[..n] then prev else prev + [n]
  }

  /**
   * What is kept is exactly the first occurrence of each signature not seen
   * before, in the original order.
   */
  lemma {:induction false} KeptMeaning(sigs: seq<Signature>, seen: set<Signature>)
    ensures var r := Kept(sigs, seen);
      (forall a, b :: 0 <= a < b < |r| ==> r[a] < r[b]) &&
      (forall k :: 0 <= k < |r| ==> sigs[r[k]] !in seen && sigs[r[k]] !in sigs[..r[k]]) &&
      (forall i :: 0 <= i < |sigs| && sigs[i] !in seen && sigs[i] !in sigs[..i] ==> i in r)
  {
    KeptIncreasing(sigs, seen);
    KeptFresh(sigs, seen);
    KeptComplete(sigs, seen);
  }

  lemma {:induction false} KeptIncreasing(sigs: seq<Signature>, seen: set<Signature>)
    ensures Increasing(Kept(sigs, seen))
  {
    if |sigs| > 0 {
      var n := |sigs| - 1;
      var prev := Kept(sigs[..n], seen);
      KeptIncreasing(sigs[..n], seen);
      assert Kept(sigs, seen) == if sigs[n] in seen || sigs[n] in sigs[..n] then prev else prev + [n];
    }
  }

  /** Each position is below the next. */
  ghost predicate Increasing(r: seq<nat>)
  {
    forall a, b :: 0 <= a < b < |r| ==> r[a] < r[b]
  }

  /** Position i holds a signature neither seen before nor earlier in sigs. */
  ghost predicate Fresh(sigs: seq<Signature>, seen: set<Signature>, i: nat)
    requires i < |sigs|
  {
    sigs[i] !in seen && sigs[i] !in sigs[..i]
  }

  lemma {:induction false} KeptFresh(sigs: seq<Signature>, seen: set<Signature>)
    ensures forall k :: 0 <= k < |Kept(sigs, seen)| ==> Fresh(sigs, seen, Kept(sigs, seen)[k])
  {
    if |sigs| > 0 {
      var n := |sigs| - 1;
      var prev := Kept(sigs[..n], seen);
      KeptFresh(sigs[..n], seen);
      assert Kept(sigs, seen) == if sigs[n] in seen || sigs[n] in sigs[..n] then prev else prev + [n];
      forall k | 0 <= k < |prev|
        ensures Fresh(sigs, seen, prev[k])
      {
        assert Fresh(sigs[..n], seen, prev[k]);
        assert sigs[..n][prev[k]] == sigs[prev[k]] && sigs[..n][..prev[k]] == sigs[..prev[k]];
      }
    }
  }

  lemma {:induction false} KeptComplete(sigs: seq<Signature>, seen: set<Signature>)
    ensures forall i :: 0 <= i < |sigs| && Fresh(sigs, seen, i) ==> i in Kept(sigs, seen)
  {
    if |sigs| > 0 {
      var n := |sigs| - 1;
      var prev := Kept(sigs[..n], seen);
      KeptComplete(sigs[..n], seen);
      assert Kept(sigs, seen) == if sigs[n] in seen || sigs[n] in sigs[..n] then prev else prev + [n];
      forall i | 0 <= i < n && Fresh(sigs, seen, i)
        ensures i in prev
      {
        assert sigs[..n][i] == sigs[i] && sigs[..n][..i] == sigs[..i];
        assert Fresh(sigs[..n], seen, i);
      }
    }
  }

  /** The kept signatures are pairwise different and none was seen before. */
  lemma KeptDistinct(sigs: seq<Signature>, seen: set<Signature>)
    ensures var r := Kept(sigs, seen);
      forall a, b :: 0 <= a < b < |r| ==> sigs[r[a]] != sigs[r[b]]
  {
    var r := Kept(sigs, seen);
    KeptMeaning(sigs, seen);
    forall a, b | 0 <= a < b < |r|
      ensures sigs[r[a]] != sigs[r[b]]
    {
      assert r[a] < r[b];
      assert sigs[..r[b]][r[a]] == sigs[r[a]];
    }
  }

  /** The first signature is kept when it was not seen before. */
  lemma KeptFirst(sigs: seq<Signature>, seen: set<Signature>)
    requires |sigs| >= 1 && sigs[0] !in seen
    ensures var r := Kept(sigs, seen); |r| >= 1 && r[0] == 0
  {
    var r := Kept(sigs, seen);
    KeptMeaning(sigs, seen);
    assert 0 in r;
  }

  /** Nothing is kept when every signature was seen before. */
  lemma KeptNone(sigs: seq<Signature>, seen: set<Signature>)
    requires forall i :: 0 <= i < |sigs| ==> sigs[i] in seen
    ensures Kept(sigs, seen) == []
  {
    var r := Kept(sigs, seen);
    KeptMeaning(sigs, seen);
  }

  /**
   * Whatever TerminateClones turns away is a clone of something recorded:
   * the seen signatures together with the kept ones are all the signatures.
   */
  lemma KeptCovers(sigs: seq<Signature>, seen: set<Signature>)
    ensures seen + Elements(sigs) == seen + Elements(Pick(sigs, Kept(sigs, seen)))
  {
    var r := Kept(sigs, seen);
    var picked := Pick(sigs, r);
    KeptMeaning(sigs, seen);
    forall s | s in sigs && s !in seen
      ensures s in picked
    {
      var i := FirstOccurrence(sigs, s);
      assert i in r;
      var k :| 0 <= k < |r| && r[k] == i;
      assert picked[k] == s;
    }
    forall s | s in picked
      ensures s in sigs
    {
      var k :| 0 <= k < |picked| && picked[k] == s;
      assert sigs[r[k]] == s;
    }
  }

  /** The first position holding a value of the sequence. */
  lemma FirstOccurrence<T>(s: seq<T>, x: T) returns (i: nat)
    requires x in s
    ensures i < |s| && s[i] == x && x !in s[..i]
  {
    i := 0;
    while s[i] != x
      invariant i < |s| && x !in s[..i]
      invariant x in s[i..]
      decreases |s| - i
    {
      assert s[i..] == [s[i]] + s[i + 1..];
      assert s[..i + 1] == s[..i] + [s[i]];
      i := i + 1;
    }
  }

  /** The signatures of picked members are the picked signatures. */
  lemma PickedSigs(items: seq<PopulationItem>, idx: seq<nat>)
    requires AllParted(items)
    requires forall k :: 0 <= k < |idx| ==> idx[k] < |items|
    ensures Members(Pick(items, idx)) <= Members(items)
    ensures AllParted(Pick(items, idx))
    ensures SigsOf(Pick(items, idx)) == Pick(SigsOf(items), idx)
  {
    var picked := Pick(items, idx);
    forall c | c in Members(picked)
      ensures c in Members(items)
    {
      var k :| 0 <= k < |picked| && c in picked[k].gene;
      MemberOf(items, idx[k]);
    }
    SigsOfAll(items);
    assert AllParted(picked) by {
      forall k | 0 <= k < |picked|
        ensures Parted(picked[k].gene)
      {
        assert picked[k] == items[idx[k]];
      }
    }
    SigsOfAll(picked);
  }

  /** Members with the same genes, renumbered or not, have the same signatures. */
  lemma SameGenesSameSigs(a: seq<PopulationItem>, b: seq<PopulationItem>)
    requires |a| == |b| && forall k :: 0 <= k < |a| ==> b[k].gene == a[k].gene
    requires AllParted(a)
    ensures Members(b) == Members(a)
    ensures AllParted(b) && SigsOf(b) == SigsOf(a)
  {
    assert Members(b) == Members(a) by {
      forall c | c in Members(b)
        ensures c in Members(a)
      {
        var k :| 0 <= k < |b| && c in b[k].gene;
        MemberOf(a, k);
      }
      forall c | c in Members(a)
        ensures c in Members(b)
      {
        var k :| 0 <= k < |a| && c in a[k].gene;
        MemberOf(b, k);
      }
    }
    SigsOfAll(a);
    assert AllParted(b) by {
      forall k | 0 <= k < |b|
        ensures Parted(b[k].gene)
      {
        assert Parted(a[k].gene);
      }
    }
    SigsOfAll(b);
  }

  /**
   * What the constructor's last two steps establish: the clones of a fresh
   * record are filtered out and the survivors renumbered.
   */
  lemma Populated(items: seq<PopulationItem>, sigs: seq<Signature>, kept: seq<PopulationItem>,
                  population: seq<PopulationItem>, adam: seq<Chromosome>)
    requires AllParted(items) && sigs == SigsOf(items) && |items| >= 1 && items[0].gene == adam
    requires forall k :: 0 <= k < |items| ==> PermutationOf(items[k].gene, adam) && items[k].fitness == Unevaluated
    requires kept == Pick(items, Kept(sigs, {}))
    requires |population| == |kept| && forall k :: 0 <= k < |kept| ==> population[k] == kept[k].(index := k)
    ensures AllParted(population) && SigsOf(population) == Pick(sigs, Kept(sigs, {}))
    ensures Distinct(SigsOf(population)) && Elements(SigsOf(population)) == Elements(sigs)
    ensures 1 <= |population| <= |items| && population[0].gene == adam
    ensures forall k :: 0 <= k < |population| ==> SigsOf(population)[k] in Elements(sigs)
    ensures forall k :: 0 <= k < |population| ==>
      PermutationOf(population[k].gene, adam) && population[k].index == k && population[k].fitness == Unevaluated
  {
    var idx := Kept(sigs, {});
    PickedSigs(items, idx);
    SameGenesSameSigs(kept, population);
    KeptDistinct(sigs, {});
    KeptCovers(sigs, {});
    KeptFirst(sigs, {});
    forall k | 0 <= k < |population|
      ensures PermutationOf(population[k].gene, adam)
    {
      assert population[k].gene == items[idx[k]].gene;
    }
  }

  /** The record of a first generation holds exactly its members' signatures. */
  lemma FirstRecord(sigs: seq<Signature>, record: set<Signature>, memberSigs: seq<Signature>)
    requires record == {} + Elements(sigs) && Elements(memberSigs) == Elements(sigs)
    ensures record == Elements(memberSigs)
    ensures forall k :: 0 <= k < |memberSigs| ==> memberSigs[k] in record
  {
  }

  // ---------------------------------------------------------------------
  // The first gene
  // ---------------------------------------------------------------------

  /** The number of parts to nest: every positive quantity, summed. */
  function TotalQuantity(parts: seq<NestItem>): (r: nat)
  {
    if |parts| == 0 then 0
    else TotalQuantity(parts[..|parts| - 1]) + CopyCount(parts[|parts| - 1].quantity)
  }

  /** `for (j = 0; j < quantity; j++)` runs this many times. */
  function CopyCount(quantity: int): nat
  {
    if quantity > 0 then quantity else 0
  }

  /** A copy of a part's polygon tree, numbered and labelled with its source. */
  function Copy(p: Nfp, id: int, source: int): Nfp
  {
    CloneTree(p).(id := id, source := source)
  }

  /** The copies of the part at position `source`, numbered from `firstId`. */
  function Copies(p: Nfp, source: int, firstId: int, count: nat): (r: seq<Nfp>)
    ensures |r| == count
  {
    seq(count, j requires 0 <= j < count => Copy(p, firstId + j, source))
  }

  /**
   * The parts before sorting: for each part in turn, as many copies as its
   * quantity, numbered consecutively from 0.
   */
  function Expanded(parts: seq<NestItem>): (r: seq<Nfp>)
  {
    if |parts| == 0 then []
    else
      var n := |parts| - 1;
      var prev := Expanded(parts[..n]);
      prev + Copies(parts[n].polygon, n, |prev|, CopyCount(parts[n].quantity))
  }

  /** There are as many copies as the quantities add up to. */
  lemma {:induction false} ExpandedLength(parts: seq<NestItem>)
    ensures |Expanded(parts)| == TotalQuantity(parts)
  {
    if |parts| > 0 {
      ExpandedLength(parts[..|parts| - 1]);
    }
  }

  /**
   * The copies of part i sit at positions TotalQuantity(parts[..i]) and on,
   * one for each unit of its quantity, and each is numbered with its position.
   */
  lemma {:induction false} ExpandedAt(parts: seq<NestItem>, i: nat, j: nat)
    requires i < |parts| && j < CopyCount(parts[i].quantity)
    ensures TotalQuantity(parts[..i]) + j < |Expanded(parts)|
    ensures Expanded(parts)[TotalQuantity(parts[..i]) + j] == Copy(parts[i].polygon, TotalQuantity(parts[..i]) + j, i)
  {
    var n := |parts| - 1;
    var prev := Expanded(parts[..n]);
    var copies := Copies(parts[n].polygon, n, |prev|, CopyCount(parts[n].quantity));
    assert Expanded(parts) == prev + copies;
    ExpandedLength(parts[..n]);
    var at := TotalQuantity(parts[..i]) + j;
    if i < n {
      assert parts[..n][..i] == parts[..i];
      assert parts[..n][i] == parts[i];
      ExpandedAt(parts[..n], i, j);
      assert (prev + copies)[at] == prev[at];
    } else {
      assert parts[..i] == parts[..n];
      assert (prev + copies)[at] == copies[j];
    }
  }

  /** Every copy is numbered with its position and comes from some part. */
  lemma {:induction false} ExpandedNumbering(parts: seq<NestItem>)
    ensures forall k :: 0 <= k < |Expanded(parts)| ==>
      Expanded(parts)[k].id == k && 0 <= Expanded(parts)[k].source < |parts| &&
      Expanded(parts)[k] == Copy(parts[Expanded(parts)[k].source].polygon, k, Expanded(parts)[k].source)
  {
    if |parts| > 0 {
      var n := |parts| - 1;
      ExpandedNumbering(parts[..n]);
      var prev := Expanded(parts[..n]);
      var e := Expanded(parts);
      var copies := Copies(parts[n].polygon, n, |prev|, CopyCount(parts[n].quantity));
      assert e == prev + copies;
      forall k | 0 <= k < |e|
        ensures e[k].id == k && 0 <= e[k].source < |parts| && e[k] == Copy(parts[e[k].source].polygon, k, e[k].source)
      {
        if k < |prev| {
          assert e[k] == prev[k];
          assert parts[..n][prev[k].source] == parts[prev[k].source];
        } else {
          assert e[k] == copies[k - |prev|] == Copy(parts[n].polygon, k, n);
        }
      }
    }
  }

  /** `OrderByDescending(|PolygonArea|)` as an ascending key. */
  function ByArea(signedArea: seq<Point> -> real): Nfp -> real
  {
    p => -Area(p, signedArea)
  }

  /**
   * `CreateAdam`: a deep copy of each part for each unit of its quantity,
   * numbered 0 … N − 1 in part order and labelled with the part's position,
   * then ordered from the largest absolute area to the smallest, ties in
   * part order. The area is a parameter.
   */
  method CreateAdam(parts: seq<NestItem>, signedArea: seq<Point> -> real) returns (adam: seq<Nfp>)
    ensures adam == SortBy(Expanded(parts), ByArea(signedArea))
  {
    var list: seq<Nfp> := [];
    var id := 0;
    for i := 0 to |parts|
      invariant list == Expanded(parts[..i]) && id == |list|
    {
      var part := parts[i];
      ghost var prev := list;
      var j := 0;
      while j < part.quantity
        invariant 0 <= j <= CopyCount(part.quantity)
        invariant list == prev + Copies(part.polygon, i, |prev|, j) && id == |list|
      {
        var poly := CloneTree(part.polygon);
        poly := poly.(id := id, source := i);
        ghost var longer := Copies(part.polygon, i, |prev|, j + 1);
        ghost var shorter := Copies(part.polygon, i, |prev|, j);
        assert longer[j] == Copy(part.polygon, |prev| + j, i) == poly;
        assert forall t :: 0 <= t < j ==> longer[t] == shorter[t];
        assert longer == shorter + [poly];
        list := list + [poly];
        id := id + 1;
        j := j + 1;
      }
      assert parts[..i + 1][..i] == parts[..i];
    }
    assert parts[..|parts|] == parts;
    adam := SortBy(list, ByArea(signedArea));
  }

  /** Some polygon of the sequence carries the id. */
  predicate HoldsId(s: seq<Nfp>, id: int)
  {
    exists k :: 0 <= k < |s| && s[k].id == id
  }

  /**
   * The first gene holds N parts, each a copy of some part numbered below N,
   * from the largest absolute area to the smallest.
   */
  lemma AdamCopies(parts: seq<NestItem>, signedArea: seq<Point> -> real)
    ensures var adam := SortBy(Expanded(parts), ByArea(signedArea));
      |adam| == TotalQuantity(parts) &&
      (forall k :: 0 <= k < |adam| ==>
        (0 <= adam[k].id < |adam| && 0 <= adam[k].source < |parts| &&
         adam[k] == Copy(parts[adam[k].source].polygon, adam[k].id, adam[k].source))) &&
      (forall a, b :: 0 <= a < b < |adam| ==> Area(adam[a], signedArea) >= Area(adam[b], signedArea))
  {
    var e := Expanded(parts);
    var adam := SortBy(e, ByArea(signedArea));
    ExpandedLength(parts);
    ExpandedNumbering(parts);
    forall k | 0 <= k < |adam|
      ensures adam[k] in e
    {
      assert adam[k] in multiset(adam);
    }
    forall a, b | 0 <= a < b < |adam|
      ensures Area(adam[a], signedArea) >= Area(adam[b], signedArea)
    {
      assert ByArea(signedArea)(adam[a]) <= ByArea(signedArea)(adam[b]);
    }
  }

  /** Every id 0 … N − 1 is carried by some part of the first gene. */
  lemma AdamIds(parts: seq<NestItem>, signedArea: seq<Point> -> real)
    ensures var adam := SortBy(Expanded(parts), ByArea(signedArea));
      forall id :: 0 <= id < |adam| ==> HoldsId(adam, id)
  {
    var e := Expanded(parts);
    var adam := SortBy(e, ByArea(signedArea));
    ExpandedNumbering(parts);
    forall id | 0 <= id < |adam|
      ensures HoldsId(adam, id)
    {
      assert e[id] in multiset(e);
      var k :| 0 <= k < |adam| && adam[k] == e[id];
      assert adam[k].id == id;
    }
  }

  // ---------------------------------------------------------------------
  // Rounds of procreation
  // ---------------------------------------------------------------------

  /** `List.Remove`: the sequence without the first occurrence of x, if any. */
  function RemoveFirst<T(==)>(s: seq<T>, x: T): (r: seq<T>)
    ensures |r| == if x in s then |s| - 1 else |s|
    ensures forall y :: y in r ==> y in s
  {
    if |s| == 0 then []
    else if s[0] == x then s[1..]
    else
      assert s == [s[0]] + s[1..];
      [s[0]] + RemoveFirst(s[1..], x)
  }

  /** Removing takes away exactly one copy of x, when there is one. */
  lemma {:induction false} RemoveFirstCounts<T>(s: seq<T>, x: T)
    ensures multiset(RemoveFirst(s, x)) == multiset(s) - multiset{x}
  {
    if |s| > 0 {
      assert s == [s[0]] + s[1..];
      if s[0] != x {
        RemoveFirstCounts(s[1..], x);
      }
    }
  }

  /** The male of a round: the weighted pick over the new generation so far. */
  function Male(pop: seq<PopulationItem>, d: ProcreationDraw): PopulationItem
    requires |pop| >= 1
  {
    pop[FirstInBand(|pop|, d.male, 0)]
  }

  /** The female of a round: the weighted pick over the others. */
  function Female(pop: seq<PopulationItem>, d: ProcreationDraw): PopulationItem
    requires |pop| >= 2
  {
    var others := RemoveFirst(pop, Male(pop, d));
    others[FirstInBand(|others|, d.female, 0)]
  }

  /**
   * Both parents come from the generation, and when its members are
   * pairwise different the female is never the male.
   */
  lemma Parents(pop: seq<PopulationItem>, d: ProcreationDraw)
    requires |pop| >= 2
    ensures Male(pop, d) in pop && Female(pop, d) in pop
    ensures Distinct(pop) ==> Female(pop, d) != Male(pop, d)
  {
    var male := Male(pop, d);
    var others := RemoveFirst(pop, male);
    RemoveFirstCounts(pop, male);
    if Distinct(pop) {
      var i := FirstInBand(|pop|, d.male, 0);
      assert multiset(pop)[male] == 1 by {
        assert pop == pop[..i] + [male] + pop[i + 1..];
        assert male !in pop[..i] && male !in pop[i + 1..];
        assert multiset(pop) == multiset(pop[..i]) + multiset{male} + multiset(pop[i + 1..]);
      }
      assert male !in multiset(others);
    }
  }

  /** The parents of a round are orderings of the first gene. */
  lemma ParentGenes(pop: seq<PopulationItem>, d: ProcreationDraw, adam: seq<Chromosome>)
    requires |pop| >= 2
    requires forall k :: 0 <= k < |pop| ==> PermutationOf(pop[k].gene, adam)
    ensures PermutationOf(Male(pop, d).gene, adam) && PermutationOf(Female(pop, d).gene, adam)
  {
    Parents(pop, d);
    var female := Female(pop, d);
    var k :| 0 <= k < |pop| && pop[k] == female;
  }

  /** A crossover of two orderings of the first gene is one too, built from its chromosomes. */
  lemma CrossoverFacts(g1: seq<Chromosome>, g2: seq<Chromosome>, adam: seq<Chromosome>, cut: nat)
    requires Numbered(adam) && PermutationOf(g1, adam) && PermutationOf(g2, adam) && cut <= |g1|
    ensures Parted(g1) && Parted(g2) && |g1| == |g2| == |adam|
    ensures (forall c :: c in g1 ==> c in adam) && (forall c :: c in g2 ==> c in adam)
    ensures PermutationOf(Crossover(g1, g2, cut), adam) && |Crossover(g1, g2, cut)| == |adam|
  {
    PermutationFacts(g1, adam);
    PermutationFacts(g2, adam);
    CrossoverIsPermutation(g1, g2, adam, cut);
    assert |g1| == |multiset(g1)| == |multiset(adam)| == |adam|;
    assert |g2| == |multiset(g2)| == |multiset(adam)|;
    assert Crossover(g1, g2, cut) == g1[..cut] + Missing(g1[..cut], g2);
    assert |Crossover(g1, g2, cut)| == |multiset(Crossover(g1, g2, cut))| == |adam|;
  }

  /** The son of a round, before mutation: the male's first genes completed from the female. */
  function Son(pop: seq<PopulationItem>, d: ProcreationDraw, adam: seq<Chromosome>): (r: seq<Chromosome>)
    reads (set c | c in adam)`part
    requires |pop| >= 2 && Numbered(adam)
    requires forall k :: 0 <= k < |pop| ==> PermutationOf(pop[k].gene, adam)
    ensures PermutationOf(r, adam) && |r| == |adam|
  {
    ParentGenes(pop, d, adam);
    var male := Male(pop, d).gene;
    var female := Female(pop, d).gene;
    CrossoverFacts(male, female, adam, CrossoverCount(d.cut, |male|));
    Crossover(male, female, CrossoverCount(d.cut, |male|))
  }

  /** The genes of a round's son and daughter, before mutation. */
  ghost predicate CoupleOf(pop: seq<PopulationItem>, d: ProcreationDraw, adam: seq<Chromosome>,
                           son: seq<Chromosome>, daughter: seq<Chromosome>)
    reads (set c | c in adam)`part
    requires |pop| >= 2 && Numbered(adam)
    requires forall k :: 0 <= k < |pop| ==> PermutationOf(pop[k].gene, adam)
  {
    son == Son(pop, d, adam) && daughter == Daughter(pop, d, adam)
  }

  /** The daughter of a round, before mutation: the female's first genes completed from the male. */
  function Daughter(pop: seq<PopulationItem>, d: ProcreationDraw, adam: seq<Chromosome>): (r: seq<Chromosome>)
    reads (set c | c in adam)`part
    requires |pop| >= 2 && Numbered(adam)
    requires forall k :: 0 <= k < |pop| ==> PermutationOf(pop[k].gene, adam)
    ensures PermutationOf(r, adam) && |r| == |adam|
  {
    ParentGenes(pop, d, adam);
    var male := Male(pop, d).gene;
    var female := Female(pop, d).gene;
    CrossoverFacts(female, male, adam, CrossoverCount(d.cut, |male|));
    Crossover(female, male, CrossoverCount(d.cut, |male|))
  }

  /**
   * How many of the fittest members Generate carries over: a tenth of the
   * population size, or all of them when there are fewer.
   */
  function EliteCount(members: nat, populationSize: nat): (r: nat)
    ensures r <= members && r <= populationSize / 10
    ensures r == members || r == populationSize / 10
  {
    if members < populationSize / 10 then members else populationSize / 10
  }

  /** Sorting a generation by fitness keeps every member an ordering of the first gene. */
  lemma SortedMembers(pop: seq<PopulationItem>, adam: seq<Chromosome>)
    requires forall k :: 0 <= k < |pop| ==> PermutationOf(pop[k].gene, adam)
    ensures forall k :: 0 <= k < |pop| ==> SortBy(pop, Fitness)[k] in pop && PermutationOf(SortBy(pop, Fitness)[k].gene, adam)
  {
    forall k | 0 <= k < |pop|
      ensures SortBy(pop, Fitness)[k] in pop && PermutationOf(SortBy(pop, Fitness)[k].gene, adam)
    {
      SortedElements(pop, Fitness, k);
    }
  }

  /** Orderings of a numbered first gene all hold parts, and their chromosomes are its chromosomes. */
  lemma AllPartedOrderings(items: seq<PopulationItem>, adam: seq<Chromosome>)
    requires Numbered(adam) && forall k :: 0 <= k < |items| ==> PermutationOf(items[k].gene, adam)
    ensures AllParted(items) && forall c :: c in Members(items) ==> c in adam
  {
    forall k | 0 <= k < |items|
      ensures Parted(items[k].gene) && forall c :: c in items[k].gene ==> c in adam
    {
      PermutationFacts(items[k].gene, adam);
    }
  }

  /** A gene whose chromosomes kept their parts and rotations keeps its signature. */
  twostate lemma SameSignature(g: seq<Chromosome>)
    requires old(Parted(g))
    requires forall k :: 0 <= k < |g| ==> g[k].part == old(g[k].part) && g[k].rotation == old(g[k].rotation)
    ensures Parted(g) && SignatureOf(g) == old(SignatureOf(g))
  {
    assert Parted(g) by {
      forall c | c in g
        ensures c.part.Some?
      {
        var k :| 0 <= k < |g| && g[k] == c;
      }
    }
    var now := SignatureOf(g);
    var before := old(SignatureOf(g));
    assert now.ids == before.ids;
    assert now.rotations == before.rotations;
  }

  /**
   * Where a member of a new generation came from: the round of procreation,
   * how many members the generation had when its parents were picked, and
   * whether it is that round's daughter rather than its son.
   */
  datatype Origin = Origin(round: nat, parents: nat, daughter: bool)

  /**
   * Member k of a new generation is the mutated son or daughter of the
   * round its origin names, bred from the generation's first members.
   */
  ghost predicate BredFrom(next: seq<PopulationItem>, k: nat, o: Origin, draws: seq<ProcreationDraw>,
                           adam: seq<Chromosome>, config: GaConfig)
    reads (set c | c in adam)`part
    requires Numbered(adam) && k < |next|
    requires forall j :: 0 <= j < |next| ==> PermutationOf(next[j].gene, adam)
  {
    o.round < |draws| && 2 <= o.parents <= k &&
    |draws[o.round].first| == |adam| && |draws[o.round].second| == |adam| &&
    next[k] == NewItem(
      if o.daughter
      then MutatedOrder(Daughter(next[..o.parents], draws[o.round], adam), draws[o.round].second, config)
      else MutatedOrder(Son(next[..o.parents], draws[o.round], adam), draws[o.round].first, config))
  }

  /**
   * The lineage of a new generation past its carried-over start: every new
   * member is a mutated child of a round its origin names, admitted under a
   * signature with its part ids; the admitted signatures are pairwise
   * different, all in `record` and none in `seen`.
   */
  ghost predicate Lineage(start: seq<PopulationItem>, next: seq<PopulationItem>, admitted: seq<Signature>,
                          origin: seq<Origin>, draws: seq<ProcreationDraw>, adam: seq<Chromosome>, config: GaConfig,
                          record: set<Signature>, seen: set<Signature>)
    reads (set c | c in adam)`part
    requires Numbered(adam) && |start| <= |next|
    requires forall k :: 0 <= k < |next| ==> PermutationOf(next[k].gene, adam)
  {
    |admitted| == |origin| == |next| - |start| &&
    (forall j :: 0 <= j < |origin| ==> BredFrom(next, |start| + j, origin[j], draws, adam, config)) &&
    (forall j :: 0 <= j < |admitted| ==> Order(next[|start| + j].gene, adam) == admitted[j].ids) &&
    Distinct(admitted) &&
    forall j :: 0 <= j < |admitted| ==> admitted[j] in record && admitted[j] !in seen
  }

  /** A lineage admitted under a record stays admitted under any larger record. */
  lemma LineageWider(start: seq<PopulationItem>, next: seq<PopulationItem>, admitted: seq<Signature>,
                     origin: seq<Origin>, draws: seq<ProcreationDraw>, adam: seq<Chromosome>, config: GaConfig,
                     record: set<Signature>, wider: set<Signature>, seen: set<Signature>)
    requires Numbered(adam) && |start| <= |next|
    requires forall k :: 0 <= k < |next| ==> PermutationOf(next[k].gene, adam)
    requires Lineage(start, next, admitted, origin, draws, adam, config, record, seen) && record <= wider
    ensures Lineage(start, next, admitted, origin, draws, adam, config, wider, seen)
  {
  }

  /** A round of procreation extends the lineage with the members it admitted. */
  lemma LineageStep(start: seq<PopulationItem>, before: seq<PopulationItem>, next: seq<PopulationItem>,
                    admitted: seq<Signature>, origin: seq<Origin>, offered: seq<Signature>,
                    draws: seq<ProcreationDraw>, i: nat, adam: seq<Chromosome>, config: GaConfig,
                    prior: set<Signature>, record: set<Signature>, seen: set<Signature>)
    requires Numbered(adam) && i < |draws| && |draws[i].first| == |adam| && |draws[i].second| == |adam|
    requires |start| <= |before| && 2 <= |before| <= |next| <= |before| + 2 && next[..|before|] == before
    requires forall k :: 0 <= k < |next| ==> PermutationOf(next[k].gene, adam)
    requires Lineage(start, before, admitted, origin, draws, adam, config, prior, seen)
    requires seen <= prior
    requires |next| > |before| ==> next[|before|] == NewItem(MutatedOrder(Son(before, draws[i], adam), draws[i].first, config))
    requires |next| > |before| + 1 ==>
      next[|before| + 1] == NewItem(MutatedOrder(Daughter(before, draws[i], adam), draws[i].second, config))
    requires 1 <= |offered| <= 2 && |next| - |before| <= |offered|
    requires |next| > |before| <==> offered[0] !in prior
    requires |next| == |before| + 2 <==> |offered| == 2 && offered[1] !in prior + {offered[0]}
    requires record == prior + Elements(offered)
    requires forall k :: |before| <= k < |next| ==> Order(next[k].gene, adam) == offered[k - |before|].ids
    ensures Lineage(start, next, admitted + offered[..|next| - |before|],
                    origin + seq(|next| - |before|, j => Origin(i, |before|, j == 1)), draws, adam, config, record, seen)
  {
    var newSigs := offered[..|next| - |before|];
    var newOrigins := seq(|next| - |before|, j => Origin(i, |before|, j == 1));
    LineageBred(start, before, next, origin, newOrigins, draws, i, adam, config);
    LineageIds(start, before, next, admitted, newSigs, adam);
    AdmittedGrow(admitted, newSigs, offered, prior, record);
    var all := admitted + newSigs;
    forall j | 0 <= j < |all|
      ensures all[j] in record && all[j] !in seen
    {
      if j >= |admitted| {
        assert all[j] == offered[j - |admitted|];
      }
    }
  }

  /** The origins of a round's members follow the origins of the members before them. */
  lemma LineageBred(start: seq<PopulationItem>, before: seq<PopulationItem>, next: seq<PopulationItem>,
                    origin: seq<Origin>, newOrigins: seq<Origin>, draws: seq<ProcreationDraw>, i: nat,
                    adam: seq<Chromosome>, config: GaConfig)
    requires Numbered(adam) && i < |draws| && |draws[i].first| == |adam| && |draws[i].second| == |adam|
    requires |start| + |origin| == |before| && 2 <= |before| <= |next| <= |before| + 2 && next[..|before|] == before
    requires forall k :: 0 <= k < |next| ==> PermutationOf(next[k].gene, adam)
    requires forall j :: 0 <= j < |origin| ==> BredFrom(before, |start| + j, origin[j], draws, adam, config)
    requires |next| > |before| ==> next[|before|] == NewItem(MutatedOrder(Son(before, draws[i], adam), draws[i].first, config))
    requires |next| > |before| + 1 ==>
      next[|before| + 1] == NewItem(MutatedOrder(Daughter(before, draws[i], adam), draws[i].second, config))
    requires newOrigins == seq(|next| - |before|, j => Origin(i, |before|, j == 1))
    ensures forall j :: 0 <= j < |origin + newOrigins| ==>
      BredFrom(next, |start| + j, (origin + newOrigins)[j], draws, adam, config)
  {
    BredRound(start, before, next, origin, newOrigins, draws, i, adam, config);
    OriginsKept(start, before, next, origin, newOrigins, draws, adam, config);
  }

  /** The same member under the same origin, however its position is written. */
  lemma BredMoved(next: seq<PopulationItem>, k: nat, o: Origin, k': nat, o': Origin,
                  draws: seq<ProcreationDraw>, adam: seq<Chromosome>, config: GaConfig)
    requires Numbered(adam) && k < |next| && k == k' && o == o'
    requires forall j :: 0 <= j < |next| ==> PermutationOf(next[j].gene, adam)
    requires BredFrom(next, k, o, draws, adam, config)
    ensures BredFrom(next, k', o', draws, adam, config)
  {
  }

  /** The members bred before a round keep their origins when the round adds its children. */
  lemma OriginsKept(start: seq<PopulationItem>, before: seq<PopulationItem>, next: seq<PopulationItem>,
                    origin: seq<Origin>, newOrigins: seq<Origin>, draws: seq<ProcreationDraw>,
                    adam: seq<Chromosome>, config: GaConfig)
    requires Numbered(adam) && |start| + |origin| == |before| <= |next| && next[..|before|] == before
    requires forall k :: 0 <= k < |next| ==> PermutationOf(next[k].gene, adam)
    requires forall k :: 0 <= k < |before| ==> PermutationOf(before[k].gene, adam)
    requires forall j :: 0 <= j < |origin| ==> BredFrom(before, |start| + j, origin[j], draws, adam, config)
    ensures forall j :: 0 <= j < |origin| ==> BredFrom(next, |start| + j, (origin + newOrigins)[j], draws, adam, config)
  {
    forall j | 0 <= j < |origin|
      ensures BredFrom(next, |start| + j, (origin + newOrigins)[j], draws, adam, config)
    {
      assert origin[j] == (origin + newOrigins)[j];
      BredExtends(before, next, |start| + j, origin[j], (origin + newOrigins)[j], draws, adam, config);
    }
  }

  /** The orders of a round's members are those of the signatures they were admitted under. */
  lemma LineageIds(start: seq<PopulationItem>, before: seq<PopulationItem>, next: seq<PopulationItem>,
                   admitted: seq<Signature>, newSigs: seq<Signature>, adam: seq<Chromosome>)
    requires |start| + |admitted| == |before| <= |next| == |before| + |newSigs| && next[..|before|] == before
    requires forall j :: 0 <= j < |admitted| ==> Order(before[|start| + j].gene, adam) == admitted[j].ids
    requires forall k :: |before| <= k < |next| ==> Order(next[k].gene, adam) == newSigs[k - |before|].ids
    ensures forall j :: 0 <= j < |admitted + newSigs| ==> Order(next[|start| + j].gene, adam) == (admitted + newSigs)[j].ids
  {
    var all := admitted + newSigs;
    forall j | 0 <= j < |all|
      ensures Order(next[|start| + j].gene, adam) == all[j].ids
    {
      if j < |admitted| {
        assert next[|start| + j] == before[|start| + j];
      } else {
        assert all[j] == newSigs[|start| + j - |before|];
      }
    }
  }

  /** The members a round of procreation adds are the mutated son and daughter of that round. */
  lemma BredRound(start: seq<PopulationItem>, before: seq<PopulationItem>, next: seq<PopulationItem>,
                  origin: seq<Origin>, newOrigins: seq<Origin>, draws: seq<ProcreationDraw>, i: nat,
                  adam: seq<Chromosome>, config: GaConfig)
    requires Numbered(adam) && i < |draws| && |draws[i].first| == |adam| && |draws[i].second| == |adam|
    requires |start| + |origin| == |before| && 2 <= |before| <= |next| <= |before| + 2 && next[..|before|] == before
    requires forall k :: 0 <= k < |next| ==> PermutationOf(next[k].gene, adam)
    requires |next| > |before| ==> next[|before|] == NewItem(MutatedOrder(Son(before, draws[i], adam), draws[i].first, config))
    requires |next| > |before| + 1 ==>
      next[|before| + 1] == NewItem(MutatedOrder(Daughter(before, draws[i], adam), draws[i].second, config))
    requires newOrigins == seq(|next| - |before|, j => Origin(i, |before|, j == 1))
    ensures forall j :: |origin| <= j < |origin| + |newOrigins| ==>
      BredFrom(next, |start| + j, (origin + newOrigins)[j], draws, adam, config)
  {
    forall j | |origin| <= j < |origin| + |newOrigins|
      ensures BredFrom(next, |start| + j, (origin + newOrigins)[j], draws, adam, config)
    {
      var m := j - |origin|;
      var o := Origin(i, |before|, m == 1);
      assert (origin + newOrigins)[j] == newOrigins[m] == o;
      if m == 1 {
        BredDaughter(before, next, draws, i, adam, config);
      } else {
        BredSon(before, next, draws, i, adam, config);
      }
      BredMoved(next, |before| + m, o, |start| + j, (origin + newOrigins)[j], draws, adam, config);
    }
  }

  /** The son of a round sits right after the members he was bred from. */
  lemma BredSon(before: seq<PopulationItem>, next: seq<PopulationItem>, draws: seq<ProcreationDraw>, i: nat,
                adam: seq<Chromosome>, config: GaConfig)
    requires Numbered(adam) && i < |draws| && |draws[i].first| == |adam| && |draws[i].second| == |adam|
    requires 2 <= |before| < |next| && next[..|before|] == before
    requires forall k :: 0 <= k < |next| ==> PermutationOf(next[k].gene, adam)
    requires next[|before|] == NewItem(MutatedOrder(Son(before, draws[i], adam), draws[i].first, config))
    ensures BredFrom(next, |before|, Origin(i, |before|, false), draws, adam, config)
  {
    assert next[..|before|] == before;
  }

  /** The daughter of a round sits right after her brother. */
  lemma BredDaughter(before: seq<PopulationItem>, next: seq<PopulationItem>, draws: seq<ProcreationDraw>, i: nat,
                     adam: seq<Chromosome>, config: GaConfig)
    requires Numbered(adam) && i < |draws| && |draws[i].first| == |adam| && |draws[i].second| == |adam|
    requires 2 <= |before| && |before| + 1 < |next| && next[..|before|] == before
    requires forall k :: 0 <= k < |next| ==> PermutationOf(next[k].gene, adam)
    requires next[|before| + 1] == NewItem(MutatedOrder(Daughter(before, draws[i], adam), draws[i].second, config))
    ensures BredFrom(next, |before| + 1, Origin(i, |before|, true), draws, adam, config)
  {
    assert next[..|before|] == before;
  }

  /** A member bred from a generation's first members stays so when the generation grows. */
  lemma BredExtends(before: seq<PopulationItem>, next: seq<PopulationItem>, k: nat, o: Origin, o': Origin,
                    draws: seq<ProcreationDraw>, adam: seq<Chromosome>, config: GaConfig)
    requires Numbered(adam) && k < |before| <= |next| && next[..|before|] == before && o == o'
    requires forall j :: 0 <= j < |next| ==> PermutationOf(next[j].gene, adam)
    requires BredFrom(before, k, o, draws, adam, config)
    ensures BredFrom(next, k, o', draws, adam, config)
  {
    assert next[k] == before[k];
    assert next[..o.parents] == before[..o.parents];
  }


  /**
   * Signatures admitted in a round were not on record before it, and the
   * earlier admitted ones were: the admitted signatures stay pairwise
   * different and new to the record the loop started from.
   */
  lemma AdmittedGrow(admitted: seq<Signature>, newSigs: seq<Signature>, offered: seq<Signature>,
                     start: set<Signature>, record: set<Signature>)
    requires Distinct(admitted)
    requires |newSigs| <= |offered| <= 2 && newSigs == offered[..|newSigs|]
    requires |newSigs| >= 1 ==> offered[0] !in start + Elements(admitted)
    requires |newSigs| == 2 ==> offered[1] !in start + Elements(admitted) + {offered[0]}
    ensures Distinct(admitted + newSigs)
    ensures forall k :: 0 <= k < |newSigs| ==> newSigs[k] !in start && newSigs[k] !in admitted
  {
    var all := admitted + newSigs;
    forall a, b | 0 <= a < b < |all|
      ensures all[a] != all[b]
    {
      if b >= |admitted| && a < |admitted| {
        assert all[a] in Elements(admitted);
      }
    }
  }

  // ---------------------------------------------------------------------
  // The driver
  // ---------------------------------------------------------------------

  class Procreant {
    const config: GaConfig
    /** The signatures of every gene recorded so far. */
    var ancestors: set<Signature>
    /** How many genes were turned away as clones. */
    var terminations: nat
    var population: seq<PopulationItem>
    /** The chromosomes of the first gene; every gene of the run is an ordering of them. */
    ghost var adam: seq<Chromosome>

    /**
     * The configuration can be used, the first gene numbers its parts
     * 0 … N − 1, every member's gene is an ordering of the first gene's
     * chromosomes, and the generation is no larger than configured.
     */
    ghost predicate Valid()
      reads this, adam
    {
      config.populationSize >= 1 && config.rotations != 0 &&
      Numbered(adam) &&
      |population| <= config.populationSize &&
      forall k :: 0 <= k < |population| ==> PermutationOf(population[k].gene, adam)
    }

    /** Every member's current signature is among the recorded ones. */
    ghost predicate Recorded()
      reads this, Members(population)
    {
      AllParted(population) &&
      forall k :: 0 <= k < |population| ==> SigsOf(population)[k] in ancestors
    }

    /** Members drawn from a recorded generation have their signatures on record. */
    lemma RecordedMembers(items: seq<PopulationItem>)
      requires Recorded()
      requires forall k :: 0 <= k < |items| ==> items[k] in population
      ensures AllParted(items) && forall j :: 0 <= j < |items| ==> SigsOf(items)[j] in ancestors
    {
      SigsOfAll(population);
      forall k | 0 <= k < |items|
        ensures Parted(items[k].gene)
      {
        var m :| 0 <= m < |population| && population[m] == items[k];
      }
      SigsOfAll(items);
      forall j | 0 <= j < |items|
        ensures SigsOf(items)[j] in ancestors
      {
        var m :| 0 <= m < |population| && population[m] == items[j];
        assert SigsOf(population)[m] in ancestors;
      }
    }

    /** No two members have the same signature. */
    ghost predicate DistinctSignatures()
      reads this, Members(population)
    {
      AllParted(population) && Distinct(SigsOf(population))
    }

    /**
     * The constructor from a first gene: each part gets a random rotation,
     * the first member holds the first gene, every other member is a mutant
     * of it, and the clones among them are turned away. The mutants share
     * the first gene's chromosome objects.
     */
    constructor (parts: seq<Nfp>, config: GaConfig, angleDraws: seq<RotationDraw>, mutationDraws: seq<seq<MutationDraw>>)
      requires config.populationSize >= 1 && config.rotations != 0
      requires |angleDraws| == |parts| && |mutationDraws| == config.populationSize - 1
      requires forall i :: 0 <= i < |mutationDraws| ==> |mutationDraws[i]| == |parts|
      ensures this.config == config
      ensures Valid() && Recorded() && DistinctSignatures()
      ensures |adam| == |parts| && forall i :: 0 <= i < |adam| ==> fresh(adam[i])
      ensures forall i :: 0 <= i < |parts| ==> adam[i].part == Some(Clone(parts[i]).(id := i))
      ensures 1 <= |population| && population[0].gene == adam
      ensures forall k :: 0 <= k < |population| ==> population[k].index == k && population[k].fitness == Unevaluated
      ensures ancestors == Elements(SigsOf(population))
      ensures terminations == config.populationSize - |population|
    {
      this.config := config;
      var angles: seq<real> := [];
      for i := 0 to |parts|
        invariant |angles| == i
        invariant forall k :: 0 <= k < i ==> angles[k] == RandomRotation(parts[k].strictAngle, config, angleDraws[k])
      {
        angles := angles + [RandomRotation(parts[i].strictAngle, config, angleDraws[i])];
      }
      var gene := BuildAdamGene(parts, angles);
      adam := gene;
      ancestors := {};
      terminations := 0;
      population := [];
      new;
      var items := Mutants(gene, mutationDraws);
      FirstGeneration(items);
    }

    /**
     * `Population = TerminateClones(population)` on a fresh record: the
     * first member and every mutant that is not a clone of an earlier one.
     */
    method FirstGeneration(items: seq<PopulationItem>)
      requires ancestors == {} && terminations == 0
      requires config.populationSize >= 1 && config.rotations != 0 && Numbered(adam)
      requires |items| == config.populationSize && items[0].gene == adam && AllParted(items)
      requires forall k :: 0 <= k < |items| ==> PermutationOf(items[k].gene, adam) && items[k].fitness == Unevaluated
      modifies this`ancestors, this`terminations, this`population
      ensures Valid() && Recorded() && DistinctSignatures()
      ensures 1 <= |population| && population[0].gene == adam
      ensures forall k :: 0 <= k < |population| ==> population[k].index == k && population[k].fitness == Unevaluated
      ensures ancestors == Elements(SigsOf(population))
      ensures terminations == config.populationSize - |population|
    {
      ghost var sigs := SigsOf(items);
      var kept := TerminateClones(items);
      assert sigs == SigsOf(items);
      SetPopulation(kept);
      FirstGenerationSettled(items, sigs, kept);
    }

    /** The state FirstGeneration leaves behind meets the class invariants. */
    lemma FirstGenerationSettled(items: seq<PopulationItem>, sigs: seq<Signature>, kept: seq<PopulationItem>)
      requires config.populationSize >= 1 && config.rotations != 0 && Numbered(adam)
      requires |items| == config.populationSize && items[0].gene == adam && AllParted(items)
      requires forall k :: 0 <= k < |items| ==> PermutationOf(items[k].gene, adam) && items[k].fitness == Unevaluated
      requires sigs == SigsOf(items) && kept == Pick(items, Kept(sigs, {}))
      requires ancestors == {} + Elements(sigs) && terminations == 0 + |items| - |kept|
      requires |population| == |kept| && forall k :: 0 <= k < |kept| ==> population[k] == kept[k].(index := k)
      ensures Valid() && Recorded() && DistinctSignatures()
      ensures 1 <= |population| && population[0].gene == adam
      ensures forall k :: 0 <= k < |population| ==> population[k].index == k && population[k].fitness == Unevaluated
      ensures ancestors == Elements(SigsOf(population))
      ensures terminations == config.populationSize - |population|
    {
      Populated(items, sigs, kept, population, adam);
      FirstRecord(sigs, ancestors, SigsOf(population));
    }

    /**
     * The first generation before clones are turned away: the first gene,
     * then one mutant of it for each list of draws.
     */
    method Mutants(gene: seq<Chromosome>, mutationDraws: seq<seq<MutationDraw>>) returns (items: seq<PopulationItem>)
      requires config.rotations != 0 && Numbered(gene)
      requires forall i :: 0 <= i < |mutationDraws| ==> |mutationDraws[i]| == |gene|
      modifies gene`rotation
      ensures |items| == |mutationDraws| + 1 && items[0] == NewItem(gene)
      ensures forall c :: c in gene ==> c.part == old(c.part)
      ensures forall k :: 0 <= k < |items| ==> PermutationOf(items[k].gene, gene) && items[k].fitness == Unevaluated
      ensures AllParted(items)
    {
      NumberedDistinct(gene);
      items := [NewItem(gene)];
      for i := 0 to |mutationDraws|
        invariant |items| == i + 1 && items[0] == NewItem(gene)
        invariant forall c :: c in gene ==> c.part == old(c.part)
        invariant forall k :: 0 <= k <= i ==> PermutationOf(items[k].gene, gene) && items[k].fitness == Unevaluated
      {
        var mutant := Mutate(items[0], mutationDraws[i]);
        MutatedMembers(gene, mutationDraws[i], config);
        items := items + [mutant];
      }
      forall k | 0 <= k < |items|
        ensures Parted(items[k].gene)
      {
        PermutationFacts(items[k].gene, gene);
      }
    }

    /**
     * `IsUnique`: records the member's signature; the member is unique when
     * the signature was not recorded before, and otherwise counts as a
     * termination.
     */
    method IsUnique(citizen: PopulationItem) returns (unique: bool)
      requires Parted(citizen.gene)
      modifies this`ancestors, this`terminations
      ensures unique <==> SignatureOf(citizen.gene) !in old(ancestors)
      ensures ancestors == old(ancestors) + {SignatureOf(citizen.gene)}
      ensures terminations == old(terminations) + (if unique then 0 else 1)
    {
      var signature := SignatureOf(citizen.gene);
      if signature !in ancestors {
        ancestors := ancestors + {signature};
        return true;
      } else {
        terminations := terminations + 1;
      }
      return false;
    }

    /**
     * `TerminateClones`: the members whose signature is new, in order,
     * recording every signature on the way.
     */
    method TerminateClones(source: seq<PopulationItem>) returns (kept: seq<PopulationItem>)
      requires AllParted(source)
      modifies this`ancestors, this`terminations
      ensures kept == Pick(source, Kept(SigsOf(source), old(ancestors)))
      ensures ancestors == old(ancestors) + Elements(SigsOf(source))
      ensures terminations == old(terminations) + |source| - |kept|
    {
      ghost var sigs := SigsOf(source);
      SigsOfAll(source);
      kept := [];
      for i := 0 to |source|
        invariant kept == Pick(source, Kept(sigs[..i], old(ancestors)))
        invariant ancestors == old(ancestors) + Elements(sigs[..i])
        invariant terminations == old(terminations) + i - |kept|
      {
        MemberOf(source, i);
        TerminateStep(source, sigs, old(ancestors), i);
        var unique := IsUnique(source[i]);
        if unique {
          kept := kept + [source[i]];
        }
      }
      assert sigs[..|source|] == sigs;
      assert SigsOf(source) == sigs;
      assert kept == Pick(source, Kept(sigs, old(ancestors)));
    }

    /** The `Population` setter: the members, each numbered with its position. */
    method SetPopulation(items: seq<PopulationItem>)
      modifies this`population
      ensures |population| == |items|
      ensures forall k :: 0 <= k < |items| ==> population[k] == items[k].(index := k)
    {
      population := items;
      for idx := 0 to |items|
        invariant |population| == |items|
        invariant forall k :: 0 <= k < idx ==> population[k] == items[k].(index := k)
        invariant forall k :: idx <= k < |items| ==> population[k] == items[k]
      {
        population := population[idx := population[idx].(index := idx)];
      }
    }

    /** A generation is finished when every member has been evaluated. */
    method IsCurrentGenerationFinished() returns (finished: bool)
      ensures finished <==> forall k :: 0 <= k < |population| ==> population[k].fitness != Unevaluated
    {
      for i := 0 to |population|
        invariant forall k :: 0 <= k < i ==> population[k].fitness != Unevaluated
      {
        if population[i].fitness == Unevaluated {
          return false;
        }
      }
      return true;
    }

    /**
     * `Mutate`: walking the gene once, each position may swap with the next
     * one, and then the chromosome at the position may get a new random
     * rotation. The child holds the parent's chromosome objects, so a
     * rotation rerolled for the child is the parent's rotation too.
     */
    method Mutate(p: PopulationItem, draws: seq<MutationDraw>) returns (child: PopulationItem)
      requires config.rotations != 0
      requires |draws| == |p.gene| && Parted(p.gene) && Distinct(p.gene)
      modifies p.gene`rotation
      ensures child == NewItem(MutatedOrder(p.gene, draws, config))
      ensures forall c :: c in p.gene ==> c.part == old(c.part)
      ensures Parted(child.gene)
      ensures forall k :: 0 <= k < |child.gene| ==>
        child.gene[k].rotation ==
          if draws[k].reroll < MutationThreshold(config)
          then RandomRotation(child.gene[k].part.value.strictAngle, config, draws[k].rotation)
          else old(RotationAfterSwaps(p.gene, draws, config, k))
    {
      ghost var order := MutatedOrder(p.gene, draws, config);
      MutatedDistinct(p.gene, draws, config);
      ghost var after := Rerolled(order, draws, config);
      assert forall k :: 0 <= k < |order| ==> old(RotationAfterSwaps(p.gene, draws, config, k)) == order[k].rotation;
      var clone := MutationPass(p.gene, draws, config, order, after);
      child := NewItem(clone);
    }

    /**
     * `Mate`: single-point crossover. The son is the male's first genes
     * completed from the female, the daughter the female's first genes
     * completed from the male; both are orderings of the first gene again.
     */
    method Mate(male: PopulationItem, female: PopulationItem, cutDraw: real) returns (son: PopulationItem, daughter: PopulationItem)
      requires Numbered(adam)
      requires PermutationOf(male.gene, adam) && PermutationOf(female.gene, adam)
      requires Parted(male.gene) && Parted(female.gene) && |female.gene| == |male.gene|
      ensures son == NewItem(Crossover(male.gene, female.gene, CrossoverCount(cutDraw, |male.gene|)))
      ensures daughter == NewItem(Crossover(female.gene, male.gene, CrossoverCount(cutDraw, |male.gene|)))
      ensures PermutationOf(son.gene, adam) && PermutationOf(daughter.gene, adam)
    {
      var c := CrossoverCount(cutDraw, |male.gene|);
      son := Offspring(male.gene, female.gene, c, adam);
      daughter := Offspring(female.gene, male.gene, c, adam);
      assert son.gene == Crossover(male.gene, female.gene, c);
      assert daughter.gene == Crossover(female.gene, male.gene, c);
    }
    /**
     * `Generate`: the members sorted by fitness, the fittest tenth carried
     * over, then rounds of procreation while the new generation has more
     * than one and fewer than the configured number of members and time is
     * left (each round consumes one draw; running out of draws is the
     * timeout). A new generation no larger than the carried-over tenth is
     * filtered for clones once more before it replaces the old one.
     */
    method Generate(draws: seq<ProcreationDraw>)
      returns (ghost bred: seq<PopulationItem>, ghost admitted: seq<Signature>, ghost origin: seq<Origin>)
      requires Valid()
      requires forall i :: 0 <= i < |draws| ==> |draws[i].first| == |adam| && |draws[i].second| == |adam|
      modifies this`population, this`ancestors, this`terminations, (set c | c in adam)`rotation
      ensures Valid()
      ensures old(ancestors) <= ancestors && old(terminations) <= terminations
      ensures forall k :: 0 <= k < |population| ==> population[k].index == k
      ensures |population| > config.populationSize / 10 ==>
        (forall k :: 0 <= k < EliteCount(|old(population)|, config.populationSize) ==>
          population[k] == SortBy(old(population), Fitness)[k].(index := k)) &&
        (forall k :: EliteCount(|old(population)|, config.populationSize) <= k < |population| ==>
          population[k].fitness == Unevaluated)
      ensures config.populationSize < 20 && old(Recorded()) ==> population == []
      // The generation bred before the final filter: the carried-over
      // members, then mutated children of its rounds, each admitted under a
      // signature that was new then and is recorded now.
      ensures var elites := EliteCount(|old(population)|, config.populationSize);
        elites <= |bred| <= config.populationSize && bred[..elites] == SortBy(old(population), Fitness)[..elites] &&
        (forall k :: 0 <= k < |bred| ==> PermutationOf(bred[k].gene, adam)) &&
        Lineage(bred[..elites], bred, admitted, origin, draws, adam, config, ancestors, old(ancestors))
      ensures |population| > config.populationSize / 10 ==>
        |population| == |bred| && forall k :: 0 <= k < |bred| ==> population[k] == bred[k].(index := k)
    {
      var sorted := SortByFitness();
      var fittest := config.populationSize / 10;
      var elites := EliteCount(|sorted|, config.populationSize);
      ghost var small := config.populationSize < 20 && old(Recorded());
      assert small ==> elites <= fittest <= 1;
      bred, admitted, origin := Regenerate(sorted[..elites], fittest, draws, small);
      if |population| > fittest {
        ElitesKept(population, bred, sorted, elites);
      }
    }

    /**
     * Generate after the sort: procreation from the carried-over members,
     * then the final filter and the replacement of the old generation.
     */
    method Regenerate(start: seq<PopulationItem>, fittest: int, draws: seq<ProcreationDraw>, ghost small: bool)
      returns (ghost bred: seq<PopulationItem>, ghost admitted: seq<Signature>, ghost origin: seq<Origin>)
      requires config.populationSize >= 1 && config.rotations != 0 && Numbered(adam)
      requires |start| <= config.populationSize && forall k :: 0 <= k < |start| ==> PermutationOf(start[k].gene, adam)
      requires forall i :: 0 <= i < |draws| ==> |draws[i].first| == |adam| && |draws[i].second| == |adam|
      requires small ==> (|start| <= fittest <= 1 &&
        AllParted(start) && forall j :: 0 <= j < |start| ==> SigsOf(start)[j] in ancestors)
      modifies this`population, this`ancestors, this`terminations, (set c | c in adam)`rotation
      ensures Valid()
      ensures old(ancestors) <= ancestors && old(terminations) <= terminations
      ensures forall k :: 0 <= k < |population| ==> population[k].index == k
      ensures |start| <= |bred| <= config.populationSize && bred[..|start|] == start
      ensures forall k :: 0 <= k < |bred| ==> PermutationOf(bred[k].gene, adam)
      ensures forall k :: |start| <= k < |bred| ==> bred[k].fitness == Unevaluated
      ensures Lineage(start, bred, admitted, origin, draws, adam, config, ancestors, old(ancestors))
      ensures |population| > fittest ==> |population| == |bred| && forall k :: 0 <= k < |bred| ==> population[k] == bred[k].(index := k)
      ensures small ==> population == []
    {
      var next;
      next, admitted, origin := Procreate(start, draws);
      bred := next;
      ghost var record := ancestors;
      assert small ==> |next| <= fittest && AllParted(next) && forall j :: 0 <= j < |next| ==> SigsOf(next)[j] in ancestors;
      Replace(next, fittest);
      assert forall c | c in adam :: c.part == old(c.part);
      LineageWider(start, next, admitted, origin, draws, adam, config, record, ancestors, old(ancestors));
    }

    /** The carried-over members head the new generation, renumbered. */
    static lemma ElitesKept(population: seq<PopulationItem>, next: seq<PopulationItem>, sorted: seq<PopulationItem>, elites: nat)
      requires elites <= |sorted| && elites <= |next| && next[..elites] == sorted[..elites]
      requires |population| == |next| && forall k :: 0 <= k < |next| ==> population[k] == next[k].(index := k)
      ensures forall k :: 0 <= k < elites ==> population[k] == sorted[k].(index := k)
    {
      forall k | 0 <= k < elites
        ensures population[k] == sorted[k].(index := k)
      {
        assert next[..elites][k] == sorted[..elites][k];
      }
    }

    /**
     * The in-place sort at the start of Generate: the members ascending by
     * fitness. The carried-over members of a recorded generation keep their
     * signatures on record.
     */
    method SortByFitness() returns (sorted: seq<PopulationItem>)
      requires Valid()
      modifies this`population
      ensures sorted == population == SortBy(old(population), Fitness)
      ensures Valid()
      ensures config.populationSize < 20 && old(Recorded()) ==>
        var start := sorted[..EliteCount(|sorted|, config.populationSize)];
        AllParted(start) && forall j :: 0 <= j < |start| ==> SigsOf(start)[j] in ancestors
    {
      sorted := SortBy(population, Fitness);
      SortedMembers(population, adam);
      var elites := EliteCount(|sorted|, config.populationSize);
      ghost var small := config.populationSize < 20 && Recorded();
      if small {
        RecordedMembers(sorted[..elites]);
      }
      ghost var sigs := if small then SigsOf(sorted[..elites]) else [];
      population := sorted;
      assert small ==> AllParted(sorted[..elites]) && SigsOf(sorted[..elites]) == sigs;
    }

    /**
     * The end of Generate: a new generation no larger than the carried-over
     * tenth is filtered for clones once more, and the result replaces the
     * old generation.
     */
    method Replace(next: seq<PopulationItem>, fittest: int)
      requires config.populationSize >= 1 && config.rotations != 0
      requires Numbered(adam) && |next| <= config.populationSize
      requires forall k :: 0 <= k < |next| ==> PermutationOf(next[k].gene, adam)
      modifies this`population, this`ancestors, this`terminations
      ensures Valid()
      ensures |population| <= |next|
      ensures forall k :: 0 <= k < |population| ==> population[k].index == k && PermutationOf(population[k].gene, adam)
      ensures old(ancestors) <= ancestors && old(terminations) <= terminations
      ensures |next| > fittest ==> |population| == |next|
      ensures |population| > fittest ==> forall k :: 0 <= k < |next| ==> population[k] == next[k].(index := k)
      ensures (|next| <= fittest &&
        old(AllParted(next) && forall j :: 0 <= j < |next| ==> SigsOf(next)[j] in ancestors)) ==> population == []
    {
      var kept := next;
      if |next| <= fittest {
        kept := CullClones(next);
      }
      SetPopulation(kept);
    }

    /** Replace's `TerminateClones` branch: a generation with no clones; none at all when every signature was on record. */
    method CullClones(next: seq<PopulationItem>) returns (kept: seq<PopulationItem>)
      requires Numbered(adam)
      requires forall k :: 0 <= k < |next| ==> PermutationOf(next[k].gene, adam)
      modifies this`ancestors, this`terminations
      ensures |kept| <= |next|
      ensures forall k :: 0 <= k < |kept| ==> PermutationOf(kept[k].gene, adam)
      ensures old(ancestors) <= ancestors && old(terminations) <= terminations
      ensures old(AllParted(next) && forall j :: 0 <= j < |next| ==> SigsOf(next)[j] in ancestors) ==> kept == []
    {
      AllPartedOrderings(next, adam);
      ghost var recorded := forall j :: 0 <= j < |next| ==> SigsOf(next)[j] in ancestors;
      if recorded {
        KeptNone(SigsOf(next), ancestors);
      }
      kept := TerminateClones(next);
      assert recorded ==> kept == [];
      forall k | 0 <= k < |kept|
        ensures PermutationOf(kept[k].gene, adam)
      {
        assert kept[k] in next;
      }
    }

    /**
     * The loop of Generate: rounds of procreation on the carried-over
     * members while there are more than one and fewer than the configured
     * number, and draws are left.
     */
    method Procreate(start: seq<PopulationItem>, draws: seq<ProcreationDraw>)
      returns (next: seq<PopulationItem>, ghost admitted: seq<Signature>, ghost origin: seq<Origin>)
      requires config.rotations != 0 && Numbered(adam) && |start| <= config.populationSize
      requires forall k :: 0 <= k < |start| ==> PermutationOf(start[k].gene, adam)
      requires forall i :: 0 <= i < |draws| ==> |draws[i].first| == |adam| && |draws[i].second| == |adam|
      modifies this`ancestors, this`terminations, (set c | c in adam)`rotation
      ensures Numbered(adam)
      ensures |start| <= |next| <= config.populationSize && next[..|start|] == start
      ensures forall k :: 0 <= k < |next| ==> PermutationOf(next[k].gene, adam)
      ensures forall k :: |start| <= k < |next| ==> next[k].fitness == Unevaluated
      ensures old(ancestors) <= ancestors && old(terminations) <= terminations
      ensures |start| <= 1 ==>
        next == start && ancestors == old(ancestors) &&
        forall j :: 0 <= j < |adam| ==> adam[j].rotation == old(adam[j].rotation)
      ensures (|start| <= 1 &&
        old(AllParted(start) && forall j :: 0 <= j < |start| ==> SigsOf(start)[j] in ancestors)) ==>
        AllParted(next) && forall j :: 0 <= j < |next| ==> SigsOf(next)[j] in ancestors
      // Every new member is a mutated child of an earlier round, admitted
      // under a signature that was new then and is recorded now.
      ensures Lineage(start, next, admitted, origin, draws, adam, config, ancestors, old(ancestors))
    {
      next := start;
      admitted := [];
      origin := [];
      var i := 0;
      while |next| > 1 && |next| < config.populationSize && i < |draws|
        invariant i <= |draws| && Numbered(adam)
        invariant |start| <= |next| <= config.populationSize && next[..|start|] == start
        invariant forall k :: 0 <= k < |next| ==> PermutationOf(next[k].gene, adam)
        invariant forall k :: |start| <= k < |next| ==> next[k].fitness == Unevaluated
        invariant old(ancestors) <= ancestors && old(terminations) <= terminations
        invariant |start| <= 1 ==>
          next == start && ancestors == old(ancestors) &&
          forall j :: 0 <= j < |adam| ==> adam[j].rotation == old(adam[j].rotation)
        invariant Lineage(start, next, admitted, origin, draws, adam, config, ancestors, old(ancestors))
        decreases |draws| - i
      {
        next, admitted, origin := Round(start, next, admitted, origin, draws, i, old(ancestors));
        i := i + 1;
      }
      if |start| <= 1 && old(AllParted(start) && forall j :: 0 <= j < |start| ==> SigsOf(start)[j] in ancestors) {
        StillRecorded(next);
      }
    }

    /**
     * One pass of Procreate's loop: Breed from the generation so far, with
     * the lineage extended by the members it admitted.
     */
    method Round(start: seq<PopulationItem>, before: seq<PopulationItem>, ghost admitted: seq<Signature>,
                 ghost origin: seq<Origin>, draws: seq<ProcreationDraw>, i: nat, ghost seen: set<Signature>)
      returns (next: seq<PopulationItem>, ghost grown: seq<Signature>, ghost traced: seq<Origin>)
      requires config.rotations != 0 && Numbered(adam)
      requires i < |draws| && |draws[i].first| == |adam| && |draws[i].second| == |adam|
      requires 2 <= |before| < config.populationSize && |start| <= |before| && before[..|start|] == start
      requires forall k :: 0 <= k < |before| ==> PermutationOf(before[k].gene, adam)
      requires forall k :: |start| <= k < |before| ==> before[k].fitness == Unevaluated
      requires seen <= ancestors
      requires Lineage(start, before, admitted, origin, draws, adam, config, ancestors, seen)
      modifies this`ancestors, this`terminations, (set c | c in adam)`rotation
      ensures Numbered(adam)
      ensures |before| <= |next| <= config.populationSize && next[..|start|] == start
      ensures forall k :: 0 <= k < |next| ==> PermutationOf(next[k].gene, adam)
      ensures forall k :: |start| <= k < |next| ==> next[k].fitness == Unevaluated
      ensures old(ancestors) <= ancestors && old(terminations) <= terminations
      ensures Lineage(start, next, grown, traced, draws, adam, config, ancestors, seen)
    {
      ghost var offered;
      next, offered := Breed(before, draws[i]);
      assert next[..|start|] == next[..|before|][..|start|];
      forall k | |start| <= k < |next|
        ensures next[k].fitness == Unevaluated
      {
        if k < |before| {
          assert next[k] == next[..|before|][k];
        }
      }
      LineageStep(start, before, next, admitted, origin, offered, draws, i, adam, config, old(ancestors), ancestors, seen);
      grown := admitted + offered[..|next| - |before|];
      traced := origin + seq(|next| - |before|, j => Origin(i, |before|, j == 1));
    }

    /**
     * Members whose signatures were on record and whose chromosomes were not
     * touched still have their signatures on record.
     */
    twostate lemma StillRecorded(next: seq<PopulationItem>)
      requires old(AllParted(next) && forall j :: 0 <= j < |next| ==> SigsOf(next)[j] in ancestors)
      requires ancestors == old(ancestors) && adam == old(adam)
      requires Numbered(adam) && forall k :: 0 <= k < |next| ==> PermutationOf(next[k].gene, adam)
      requires forall j :: 0 <= j < |adam| ==> adam[j].rotation == old(adam[j].rotation) && adam[j].part == old(adam[j].part)
      ensures AllParted(next) && forall j :: 0 <= j < |next| ==> SigsOf(next)[j] in ancestors
    {
      AllPartedOrderings(next, adam);
      SigsOfAll(next);
      forall j | 0 <= j < |next|
        ensures SigsOf(next)[j] in ancestors
      {
        var g := next[j].gene;
        assert old(SigsOf(next)[j]) == old(SignatureOf(g));
        PermutationFacts(g, adam);
        forall k | 0 <= k < |g|
          ensures g[k].part == old(g[k].part) && g[k].rotation == old(g[k].rotation)
        {
          assert g[k] in g;
        }
        SameSignature(g);
      }
    }

    /**
     * One pass of Generate's loop: a male and a female picked by weight,
     * their two children, and the mutated son added when its signature is
     * new; then, if there is still room, the mutated daughter when its
     * signature is new too.
     */
    method Breed(pop: seq<PopulationItem>, d: ProcreationDraw) returns (next: seq<PopulationItem>, ghost offered: seq<Signature>)
      requires config.rotations != 0 && Numbered(adam)
      requires 2 <= |pop| < config.populationSize
      requires forall k :: 0 <= k < |pop| ==> PermutationOf(pop[k].gene, adam)
      requires |d.first| == |adam| && |d.second| == |adam|
      modifies this`ancestors, this`terminations, (set c | c in adam)`rotation
      ensures Numbered(adam)
      ensures |pop| <= |next| <= |pop| + 2 && |next| <= config.populationSize && next[..|pop|] == pop
      ensures forall k :: 0 <= k < |next| ==> PermutationOf(next[k].gene, adam)
      ensures forall k :: |pop| <= k < |next| ==> next[k].fitness == Unevaluated
      ensures |next| > |pop| ==> next[|pop|] == NewItem(MutatedOrder(Son(pop, d, adam), d.first, config))
      ensures |next| > |pop| + 1 ==> next[|pop| + 1] == NewItem(MutatedOrder(Daughter(pop, d, adam), d.second, config))
      ensures |next| == |pop| ==> terminations > old(terminations)
      ensures old(ancestors) <= ancestors && old(terminations) <= terminations
      // The signatures checked this round, each as it was when checked.
      ensures 1 <= |offered| <= 2 && |next| - |pop| <= |offered|
      ensures |offered| == 2 <==> |next| > |pop| && |pop| + 1 < config.populationSize
      ensures |next| > |pop| <==> offered[0] !in old(ancestors)
      ensures |next| == |pop| + 2 <==> |offered| == 2 && offered[1] !in old(ancestors) + {offered[0]}
      ensures ancestors == old(ancestors) + Elements(offered)
      ensures terminations == old(terminations) + |offered| - (|next| - |pop|)
      ensures forall k :: |pop| <= k < |next| ==> Order(next[k].gene, adam) == offered[k - |pop|].ids
    {
      var added;
      added, offered := Children(pop, d);
      next := pop + added;
      Appended(pop, added, offered, adam);
      assert |added| >= 1 ==> next[|pop|] == added[0];
      assert |added| >= 2 ==> next[|pop| + 1] == added[1];
    }

    /** The children a round admits: Brood over the couple the round picks. */
    method Children(pop: seq<PopulationItem>, d: ProcreationDraw) returns (added: seq<PopulationItem>, ghost offered: seq<Signature>)
      requires config.rotations != 0 && Numbered(adam)
      requires 2 <= |pop| < config.populationSize
      requires forall k :: 0 <= k < |pop| ==> PermutationOf(pop[k].gene, adam)
      requires |d.first| == |adam| && |d.second| == |adam|
      modifies this`ancestors, this`terminations, (set c | c in adam)`rotation
      ensures Numbered(adam)
      ensures |added| <= 2 && |added| <= config.populationSize - |pop|
      ensures 1 <= |offered| <= 2 && |added| <= |offered|
      ensures forall k :: 0 <= k < |added| ==> PermutationOf(added[k].gene, adam) && added[k].fitness == Unevaluated
      ensures forall k :: 0 <= k < |added| ==> Order(added[k].gene, adam) == offered[k].ids
      ensures |added| >= 1 ==> added[0] == NewItem(MutatedOrder(Son(pop, d, adam), d.first, config))
      ensures |added| >= 2 ==> added[1] == NewItem(MutatedOrder(Daughter(pop, d, adam), d.second, config))
      ensures |offered| == 2 <==> |added| >= 1 && |pop| + 1 < config.populationSize
      ensures |added| >= 1 <==> offered[0] !in old(ancestors)
      ensures |added| == 2 <==> |offered| == 2 && offered[1] !in old(ancestors) + {offered[0]}
      ensures ancestors == old(ancestors) + Elements(offered)
      ensures terminations == old(terminations) + |offered| - |added|
    {
      var son, daughter := Couple(pop, d);
      assert CoupleOf(pop, d, adam, son.gene, daughter.gene);
      added, offered := Brood(son, daughter, d, config.populationSize - |pop|);
      assert CoupleOf(pop, d, adam, son.gene, daughter.gene);
    }

    /** The generation with Brood's children appended keeps its members and gains theirs. */
    static lemma Appended(pop: seq<PopulationItem>, added: seq<PopulationItem>, offered: seq<Signature>, adam: seq<Chromosome>)
      requires |added| <= |offered|
      requires forall k :: 0 <= k < |pop| ==> PermutationOf(pop[k].gene, adam)
      requires forall k :: 0 <= k < |added| ==> PermutationOf(added[k].gene, adam) && added[k].fitness == Unevaluated
      requires forall k :: 0 <= k < |added| ==> Order(added[k].gene, adam) == offered[k].ids
      ensures (pop + added)[..|pop|] == pop
      ensures forall k :: 0 <= k < |pop + added| ==> PermutationOf((pop + added)[k].gene, adam)
      ensures forall k :: |pop| <= k < |pop + added| ==> (pop + added)[k].fitness == Unevaluated
      ensures forall k :: |pop| <= k < |pop + added| ==> Order((pop + added)[k].gene, adam) == offered[k - |pop|].ids
    {
      var next := pop + added;
      assert next[..|pop|] == pop;
      forall k | 0 <= k < |next|
        ensures PermutationOf(next[k].gene, adam)
        ensures k >= |pop| ==> next[k].fitness == Unevaluated && Order(next[k].gene, adam) == offered[k - |pop|].ids
      {
        if k >= |pop| {
          assert next[k] == added[k - |pop|];
        }
      }
    }

    /**
     * The mutated son when its signature is new, followed by the mutated
     * daughter when there is room for two and her signature is new too.
     */
    method Brood(son: PopulationItem, daughter: PopulationItem, d: ProcreationDraw, room: int)
      returns (added: seq<PopulationItem>, ghost offered: seq<Signature>)
      requires config.rotations != 0 && Numbered(adam) && room >= 1
      requires PermutationOf(son.gene, adam) && PermutationOf(daughter.gene, adam)
      requires |d.first| == |son.gene| && |d.second| == |daughter.gene|
      modifies this`ancestors, this`terminations, (set c | c in adam)`rotation
      ensures Numbered(adam)
      ensures |added| <= 2 && |added| <= room
      ensures forall k :: 0 <= k < |added| ==> PermutationOf(added[k].gene, adam) && added[k].fitness == Unevaluated
      ensures |added| >= 1 ==> added[0] == NewItem(MutatedOrder(son.gene, d.first, config))
      ensures |added| >= 2 ==> added[1] == NewItem(MutatedOrder(daughter.gene, d.second, config))
      ensures |added| == 0 ==> terminations > old(terminations)
      ensures old(ancestors) <= ancestors && old(terminations) <= terminations
      // The signatures checked, each as it was when checked: the son's, then
      // the daughter's when the son got in and there is room for two.
      ensures 1 <= |offered| <= 2 && |added| <= |offered|
      ensures |offered| == 2 <==> |added| >= 1 && room > 1
      ensures |added| >= 1 <==> offered[0] !in old(ancestors)
      ensures |added| == 2 <==> |offered| == 2 && offered[1] !in old(ancestors) + {offered[0]}
      ensures ancestors == old(ancestors) + Elements(offered)
      ensures terminations == old(terminations) + |offered| - |added|
      ensures forall k :: 0 <= k < |added| ==> Order(added[k].gene, adam) == offered[k].ids
    {
      added := [];
      var unique, child := Offer(son, d.first);
      SignatureOrder(child.gene, adam);
      offered := [SignatureOf(child.gene)];
      if unique {
        added := [child];
        if room > 1 {
          unique, child := Offer(daughter, d.second);
          SignatureOrder(child.gene, adam);
          offered := offered + [SignatureOf(child.gene)];
          if unique {
            added := added + [child];
          }
        }
      }
      Admitted(added, offered, adam);
    }

    /** Brood's children, each an unevaluated ordering admitted under a signature with its part ids. */
    static lemma Admitted(added: seq<PopulationItem>, offered: seq<Signature>, adam: seq<Chromosome>)
      requires |added| <= 2 && |added| <= |offered|
      requires |added| >= 1 ==> (PermutationOf(added[0].gene, adam) && added[0].fitness == Unevaluated &&
        Order(added[0].gene, adam) == offered[0].ids)
      requires |added| == 2 ==> (PermutationOf(added[1].gene, adam) && added[1].fitness == Unevaluated &&
        Order(added[1].gene, adam) == offered[1].ids)
      ensures forall k :: 0 <= k < |added| ==> PermutationOf(added[k].gene, adam) && added[k].fitness == Unevaluated
      ensures forall k :: 0 <= k < |added| ==> Order(added[k].gene, adam) == offered[k].ids
    {
      forall k | 0 <= k < |added|
        ensures PermutationOf(added[k].gene, adam) && added[k].fitness == Unevaluated
        ensures Order(added[k].gene, adam) == offered[k].ids
      {
        assert k == 0 || k == 1;
      }
    }

    /** The weighted choice of the parents and their two children. */
    method Couple(pop: seq<PopulationItem>, d: ProcreationDraw) returns (son: PopulationItem, daughter: PopulationItem)
      requires Numbered(adam) && |pop| >= 2
      requires forall k :: 0 <= k < |pop| ==> PermutationOf(pop[k].gene, adam)
      ensures son == NewItem(Son(pop, d, adam)) && daughter == NewItem(Daughter(pop, d, adam))
    {
      var male := Male(pop, d);
      var female := Female(pop, d);
      ParentGenes(pop, d, adam);
      PermutationFacts(male.gene, adam);
      PermutationFacts(female.gene, adam);
      son, daughter := Mate(male, female, d.cut);
    }

    /**
     * A child mutated and checked for uniqueness: the mutant is an ordering
     * of the first gene, and its signature is recorded.
     */
    method Offer(child: PopulationItem, draws: seq<MutationDraw>) returns (unique: bool, mutant: PopulationItem)
      requires config.rotations != 0 && Numbered(adam)
      requires PermutationOf(child.gene, adam) && |draws| == |child.gene|
      modifies this`ancestors, this`terminations, (set c | c in adam)`rotation
      ensures Numbered(adam)
      ensures mutant == NewItem(MutatedOrder(child.gene, draws, config)) && PermutationOf(mutant.gene, adam)
      ensures Parted(mutant.gene) && (unique <==> SignatureOf(mutant.gene) !in old(ancestors))
      ensures ancestors == old(ancestors) + {SignatureOf(mutant.gene)}
      ensures terminations == old(terminations) + (if unique then 0 else 1)
    {
      PermutationFacts(child.gene, adam);
      assert |child.gene| == |multiset(child.gene)| == |adam|;
      mutant := Mutate(child, draws);
      MutatedMembers(child.gene, draws, config);
      forall i | 0 <= i < |adam|
        ensures adam[i].part.Some? && adam[i].part.value.id == i
      {
        assert adam[i] in child.gene;
      }
      unique := IsUnique(mutant);
    }
  }

  /**
   * One child of a crossover: the initiant's first `cut` chromosomes
   * completed from the supplicant, wrapped as a new member.
   */
  method Offspring(initiant: seq<Chromosome>, supplicant: seq<Chromosome>, cut: nat, ghost adam: seq<Chromosome>)
    returns (child: PopulationItem)
    requires Numbered(adam) && PermutationOf(initiant, adam) && PermutationOf(supplicant, adam)
    requires Parted(initiant) && Parted(supplicant) && cut <= |initiant|
    ensures child == NewItem(Crossover(initiant, supplicant, cut))
    ensures PermutationOf(child.gene, adam)
  {
    CrossoverIsPermutation(initiant, supplicant, adam, cut);
    ghost var full := Crossover(initiant, supplicant, cut);
    assert full == initiant[..cut] + Missing(initiant[..cut], supplicant);
    var ok, gene := CompleteGene(initiant[..cut], supplicant);
    assert ok && gene == Resized(full, |supplicant|);
    ResizedExact(full);
    var chromosomes: seq<Chromosome> := gene;
    child := NewItem(chromosomes);
  }

  /**
   * `BuildAdamGene`: a chromosome for each part, holding a clone of the part
   * renumbered with its position, at the given rotation.
   */
  method BuildAdamGene(parts: seq<Nfp>, rotations: seq<real>) returns (gene: seq<Chromosome>)
    requires |rotations| >= |parts|
    ensures |gene| == |parts| && forall i :: 0 <= i < |gene| ==> fresh(gene[i])
    ensures Numbered(gene)
    ensures forall i :: 0 <= i < |parts| ==> gene[i].part == Some(Clone(parts[i]).(id := i)) && gene[i].rotation == rotations[i]
  {
    gene := [];
    for i := 0 to |parts|
      invariant |gene| == i && forall k :: 0 <= k < i ==> fresh(gene[k])
      invariant forall k :: 0 <= k < i ==> gene[k].part == Some(Clone(parts[k]).(id := k)) && gene[k].rotation == rotations[k]
    {
      var chromosome := new Chromosome(parts[i], rotations[i]);
      chromosome.SetIndex(i);
      gene := gene + [chromosome];
    }
  }

  /**
   * The constructor from a first gene, with its failure: the generation
   * array cannot have a negative length, and an empty one has no place for
   * the first gene. Any other size builds the driver as the constructor does.
   */
  method FromAdam(adam: seq<Nfp>, config: GaConfig, angleDraws: seq<RotationDraw>, mutationDraws: seq<seq<MutationDraw>>)
    returns (r: Result<Procreant>)
    requires config.rotations != 0
    requires |angleDraws| == |adam|
    requires config.populationSize >= 1 ==> |mutationDraws| == config.populationSize - 1
    requires forall i :: 0 <= i < |mutationDraws| ==> |mutationDraws[i]| == |adam|
    ensures config.populationSize < 0 <==> r == Failure(ArithmeticOverflow)
    ensures config.populationSize == 0 <==> r == Failure(IndexOutOfRange)
    ensures r.Success? <==> config.populationSize >= 1
    ensures r.Success? ==> (fresh(r.value) && r.value.config == config &&
      r.value.Valid() && r.value.Recorded() && r.value.DistinctSignatures() &&
      |r.value.adam| == |adam| &&
      (forall i :: 0 <= i < |adam| ==> r.value.adam[i].part == Some(Clone(adam[i]).(id := i))) &&
      1 <= |r.value.population| && r.value.population[0].gene == r.value.adam)
  {
    if config.populationSize < 0 {
      return Failure(ArithmeticOverflow);
    }
    if config.populationSize == 0 {
      return Failure(IndexOutOfRange);
    }
    var p := new Procreant(adam, config, angleDraws, mutationDraws);
    return Success(p);
  }

  /**
   * The constructor from the parts to nest: the first gene is made by
   * CreateAdam and the rest as by the constructor from a first gene,
   * failing as that one does.
   */
  method FromParts(parts: seq<NestItem>, signedArea: seq<Point> -> real, config: GaConfig,
                   angleDraws: seq<RotationDraw>, mutationDraws: seq<seq<MutationDraw>>) returns (r: Result<Procreant>)
    requires config.rotations != 0
    requires |angleDraws| == TotalQuantity(parts)
    requires config.populationSize >= 1 ==> |mutationDraws| == config.populationSize - 1
    requires forall i :: 0 <= i < |mutationDraws| ==> |mutationDraws[i]| == TotalQuantity(parts)
    ensures config.populationSize < 0 <==> r == Failure(ArithmeticOverflow)
    ensures config.populationSize == 0 <==> r == Failure(IndexOutOfRange)
    ensures r.Success? <==> config.populationSize >= 1
    ensures r.Success? ==> (fresh(r.value) && r.value.config == config &&
      r.value.Valid() && r.value.Recorded() && r.value.DistinctSignatures() &&
      |r.value.adam| == |Expanded(parts)| == TotalQuantity(parts) &&
      forall i :: 0 <= i < |r.value.adam| ==>
        r.value.adam[i].part == Some(Clone(SortBy(Expanded(parts), ByArea(signedArea))[i]).(id := i)))
  {
    var adam := CreateAdam(parts, signedArea);
    ExpandedLength(parts);
    r := FromAdam(adam, config, angleDraws, mutationDraws);
  }
}
