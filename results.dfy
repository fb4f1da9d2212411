/**
 * The outcome of one nest (NestResult) and the list of used sheets it holds
 * (SheetPlacementCollection): how many parts were placed, the fraction placed,
 * material use, validity, and the memoised sheet cost. The per-sheet fitness
 * formulas and polygon areas belong to code outside this model and are
 * parameters here.
 */
module Results {
  import opened Wrappers
  import opened Numeric
  import opened Geometry

  /** Where one part went on its sheet: the (rotated) part and its offset. */
  datatype PartPlacement = PartPlacement(part: Nfp, x: real, y: real, id: int, source: int, rotation: real)

  /**
   * One used sheet and the parts placed on it. `sheetRef` is the position of
   * the sheet in the list the placement worker was given: it stands for the
   * identity of the sheet object, which the worker compares by reference.
   */
  datatype SheetPlacement = SheetPlacement(
    sheetRef: nat,
    sheet: Nfp,
    originalSheet: Nfp,
    partPlacements: seq<PartPlacement>,
    mergedLength: real)

  /** The per-sheet fitness components, computed by the fitness evaluator. */
  datatype SheetFitness = SheetFitness(bounds: real, materialUtilization: real, materialWasted: real, sheets: real)

  /** A finished nest: how many parts the gene had, the used sheets and the parts left over. */
  datatype NestResult = NestResult(totalParts: int, usedSheets: seq<SheetPlacement>, unplacedParts: seq<Nfp>)

  // ---------------------------------------------------------------------------
  // Counting placed parts

  /** Σ PartPlacements.Count over a list of used sheets. */
  function PlacedCount(sheets: seq<SheetPlacement>): nat
  {
    if sheets == [] then 0
    else PlacedCount(sheets[..|sheets| - 1]) + |sheets[|sheets| - 1].partPlacements|
  }

  /** Placed counts add up over a concatenation of sheet lists. */
  lemma {:induction false} PlacedCountConcat(a: seq<SheetPlacement>, b: seq<SheetPlacement>)
    ensures PlacedCount(a + b) == PlacedCount(a) + PlacedCount(b)
    decreases |b|
  {
    if b != [] {
      var n := |b| - 1;
      assert (a + b)[..|a + b| - 1] == a + b[..n];
      PlacedCountConcat(a, b[..n]);
    } else {
      assert a + b == a;
    }
  }

  /** Removing one used sheet removes exactly its placements from the count. */
  lemma PlacedCountRemove(sheets: seq<SheetPlacement>, i: nat)
    requires i < |sheets|
    ensures PlacedCount(sheets[..i] + sheets[i + 1..]) + |sheets[i].partPlacements| == PlacedCount(sheets)
  {
    PlacedCountConcat(sheets[..i], sheets[i + 1..]);
    PlacedCountConcat(sheets[..i], [sheets[i]]);
    PlacedCountConcat(sheets[..i] + [sheets[i]], sheets[i + 1..]);
    assert sheets[..i] + [sheets[i]] + sheets[i + 1..] == sheets;
    assert PlacedCount([sheets[i]]) == |sheets[i].partPlacements| by {
      assert [sheets[i]][..0] == [];
    }
  }

  /** TotalPlacedCount: the parts placed on all used sheets. */
  function TotalPlacedCount(r: NestResult): nat
  {
    PlacedCount(r.usedSheets)
  }

  /** TotalPartsCount: placed parts plus the parts left unplaced. */
  function TotalPartsCount(r: NestResult): (n: nat)
    ensures n >= TotalPlacedCount(r) && n - TotalPlacedCount(r) == |r.unplacedParts|
  {
    TotalPlacedCount(r) + |r.unplacedParts|
  }

  /**
   * PartsPlacedPercent: placed / TotalPartsCount as a double division, so a
   * nest with no parts at all gives NaN.
   */
  function PartsPlacedPercent(r: NestResult): (p: Double)
    ensures TotalPartsCount(r) == 0 <==> p.NaN?
    ensures TotalPartsCount(r) > 0 ==> p.Finite? && 0.0 <= p.value <= 1.0
    ensures p.Finite? ==> (p.value == 1.0 <==> r.unplacedParts == [])
    ensures p.Finite? ==> (p.value == 0.0 <==> TotalPlacedCount(r) == 0)
  {
    var placed := TotalPlacedCount(r) as real;
    var total := TotalPartsCount(r) as real;
    FractionFacts(placed, total);
    Divide(placed, total)
  }

  /** A share of a positive whole, as a double, lies in [0, 1] and is 1 exactly for the whole. */
  lemma FractionFacts(part: real, whole: real)
    requires 0.0 <= part <= whole
    ensures whole > 0.0 ==> 0.0 <= Divide(part, whole).value <= 1.0
    ensures whole > 0.0 ==> (Divide(part, whole).value == 1.0 <==> part == whole)
    ensures whole > 0.0 ==> (Divide(part, whole).value == 0.0 <==> part == 0.0)
  {
    if whole > 0.0 {
      var q := Divide(part, whole).value;
      assert q * whole == part;
      if q > 1.0 { MulStrict(whole, 1.0, q); }
      if q < 0.0 { MulStrict(whole, q, 0.0); }
    }
  }

  /**
   * IsValid: the fitness is a number and no more parts are accounted for
   * than the gene held.
   */
  predicate IsValid(r: NestResult, fitness: Double)
  {
    !(fitness.NaN? || TotalPartsCount(r) > r.totalParts)
  }

  /** A result that accounts for exactly the gene's parts is valid whenever its fitness is a number. */
  lemma ExactCountIsValid(r: NestResult, fitness: Double)
    requires TotalPartsCount(r) == r.totalParts
    ensures IsValid(r, fitness) <==> !fitness.NaN?
  {
  }

  // ---------------------------------------------------------------------------
  // Summed components

  /** Σ f(s) over the used sheets, first to last. */
  function SumBy(sheets: seq<SheetPlacement>, f: SheetPlacement -> real): (r: real)
    ensures (forall i :: 0 <= i < |sheets| ==> f(sheets[i]) >= 0.0) ==> r >= 0.0
  {
    if sheets == [] then 0.0 else SumBy(sheets[..|sheets| - 1], f) + f(sheets[|sheets| - 1])
  }

  /** Sums over used sheets add up over a concatenation. */
  lemma {:induction false} SumByConcat(a: seq<SheetPlacement>, b: seq<SheetPlacement>, f: SheetPlacement -> real)
    ensures SumBy(a + b, f) == SumBy(a, f) + SumBy(b, f)
    decreases |b|
  {
    if b != [] {
      var n := |b| - 1;
      assert (a + b)[..|a + b| - 1] == a + b[..n];
      SumByConcat(a, b[..n], f);
    } else {
      assert a + b == a;
    }
  }

  /**
   * MergedLength: the sheets' merged lengths summed; 0 with no used sheet,
   * one sheet's own length, and never negative when no sheet's is.
   */
  function MergedLength(r: NestResult): (m: real)
    ensures r.usedSheets == [] ==> m == 0.0
    ensures |r.usedSheets| == 1 ==> m == r.usedSheets[0].mergedLength
    ensures (forall k :: 0 <= k < |r.usedSheets| ==> r.usedSheets[k].mergedLength >= 0.0) ==> m >= 0.0
  {
    var length := (s: SheetPlacement) => s.mergedLength;
    assert |r.usedSheets| == 1 ==> r.usedSheets[..0] == [] && SumBy([], length) == 0.0;
    SumBy(r.usedSheets, length)
  }

  /** The net area (outline minus holes) of the parts placed on one sheet. */
  function PlacedNetArea(pps: seq<PartPlacement>, signedArea: seq<Point> -> real): real
  {
    if pps == [] then 0.0
    else PlacedNetArea(pps[..|pps| - 1], signedArea) + NetArea(pps[|pps| - 1].part, signedArea)
  }

  /** TotalPartsArea: the net area of every placed part on every used sheet. */
  function TotalPartsArea(r: NestResult, signedArea: seq<Point> -> real): real
  {
    SumBy(r.usedSheets, (s: SheetPlacement) => PlacedNetArea(s.partPlacements, signedArea))
  }

  /** TotalSheetsArea: the area of every used sheet; never negative. */
  function TotalSheetsArea(r: NestResult, signedArea: seq<Point> -> real): (a: real)
    ensures a >= 0.0
  {
    SumBy(r.usedSheets, (s: SheetPlacement) => Area(s.sheet, signedArea))
  }

  /** Math.Abs over a double. */
  function AbsDouble(d: Double): (r: Double)
    ensures d.Finite? ==> r == Finite(Abs(d.value))
    ensures d.NaN? <==> r.NaN?
    ensures d.PositiveInfinity? || d.NegativeInfinity? ==> r.PositiveInfinity?
  {
    match d
    case Finite(v) => Finite(Abs(v))
    case NaN => NaN
    case _ => PositiveInfinity
  }

  /**
   * MaterialUtilization: |total parts area / total sheets area|. With no
   * sheet area it is NaN (no parts area either) or +∞.
   */
  function MaterialUtilization(r: NestResult, signedArea: seq<Point> -> real): (u: Double)
    ensures r.usedSheets == [] ==> u.NaN?
    ensures var sheets := TotalSheetsArea(r, signedArea);
      sheets > 0.0 ==> u.Finite? && u.value >= 0.0 && u.value * sheets == Abs(TotalPartsArea(r, signedArea))
    ensures TotalSheetsArea(r, signedArea) == 0.0 ==> u.NaN? || u.PositiveInfinity?
  {
    Utilization(TotalPartsArea(r, signedArea), TotalSheetsArea(r, signedArea))
  }

  /** |parts / sheets| as a double, for a sheets area that is never negative. */
  function Utilization(parts: real, sheets: real): (u: Double)
    requires sheets >= 0.0
    ensures sheets > 0.0 ==> u.Finite? && u.value >= 0.0 && u.value * sheets == Abs(parts)
    ensures sheets == 0.0 ==> (u.NaN? <==> parts == 0.0) && (u.NaN? || u.PositiveInfinity?)
  {
    AbsQuotient(parts, sheets);
    AbsDouble(Divide(parts, sheets))
  }

  /** |a / b| · b == |a| for a positive b. */
  lemma AbsQuotient(a: real, b: real)
    ensures b > 0.0 ==> Abs(a / b) * b == Abs(a)
  {
    if b > 0.0 {
      assert (a / b) * b == a;
      if a / b < 0.0 {
        assert Abs(a / b) * b == -((a / b) * b);
      }
    }
  }

  // ---------------------------------------------------------------------------
  // The memoised sheet cost

  /** Whether any part placed on a sheet is a priority part. */
  predicate AnyPriority(pps: seq<PartPlacement>)
  {
    exists k :: 0 <= k < |pps| && pps[k].part.isPriority
  }

  /**
   * The contribution of sheet i to Sheets: its own fitness share, plus its
   * area when the next sheet carries a priority part.
   */
  function SheetCost(sheets: seq<SheetPlacement>, i: nat, fitness: SheetPlacement -> SheetFitness,
                     signedArea: seq<Point> -> real): real
    requires i < |sheets|
  {
    fitness(sheets[i]).sheets +
      (if i < |sheets| - 1 && AnyPriority(sheets[i + 1].partPlacements) then Area(sheets[i].sheet, signedArea) else 0.0)
  }

  /** The sheet cost of the first n sheets. */
  function SheetsUpTo(sheets: seq<SheetPlacement>, n: nat, fitness: SheetPlacement -> SheetFitness,
                      signedArea: seq<Point> -> real): real
    requires n <= |sheets|
  {
    if n == 0 then 0.0 else SheetsUpTo(sheets, n - 1, fitness, signedArea) + SheetCost(sheets, n - 1, fitness, signedArea)
  }

  /**
   * The priority surcharge never lowers the cost: the first n sheets cost at
   * least their summed fitness shares, and exactly that when none of the
   * sheets after the first carries a priority part.
   */
  lemma {:induction false} SheetsUpToBounds(sheets: seq<SheetPlacement>, n: nat, fitness: SheetPlacement -> SheetFitness,
                                            signedArea: seq<Point> -> real)
    requires n <= |sheets|
    ensures SheetsUpTo(sheets, n, fitness, signedArea) >= SumBy(sheets[..n], (s: SheetPlacement) => fitness(s).sheets)
    ensures (forall i :: 1 <= i < |sheets| ==> !AnyPriority(sheets[i].partPlacements)) ==>
      SheetsUpTo(sheets, n, fitness, signedArea) == SumBy(sheets[..n], (s: SheetPlacement) => fitness(s).sheets)
  {
    if n > 0 {
      SheetsUpToBounds(sheets, n - 1, fitness, signedArea);
      assert sheets[..n][..n - 1] == sheets[..n - 1];
    }
  }

  /**
   * SheetPlacementCollection: the used sheets of a nest with the summed
   * fitness components and the memoised `sheets` total.
   */
  class SheetPlacementCollection {
    var items: seq<SheetPlacement>
    /** The memo behind Sheets; 0 means "not computed yet". */
    var sheets: real
    const fitness: SheetPlacement -> SheetFitness
    const signedArea: seq<Point> -> real

    constructor (items: seq<SheetPlacement>, fitness: SheetPlacement -> SheetFitness, signedArea: seq<Point> -> real)
      ensures this.items == items && sheets == 0.0
      ensures this.fitness == fitness && this.signedArea == signedArea
    {
      this.items := items;
      this.sheets := 0.0;
      this.fitness := fitness;
      this.signedArea := signedArea;
    }

    /** List.Add: the memo is not touched. */
    method Add(sp: SheetPlacement)
      modifies this`items
      ensures items == old(items) + [sp]
    {
      items := items + [sp];
    }

    function Bounds(): real
      reads this
    {
      SumBy(items, (s: SheetPlacement) => fitness(s).bounds)
    }

    function MaterialUtilization(): real
      reads this
    {
      SumBy(items, (s: SheetPlacement) => fitness(s).materialUtilization)
    }

    function MaterialWasted(): real
      reads this
    {
      SumBy(items, (s: SheetPlacement) => fitness(s).materialWasted)
    }

    /** TotalPartsPlaced: Σ PartPlacements.Count. */
    function TotalPartsPlaced(): nat
      reads this
    {
      PlacedCount(items)
    }

    /**
     * Sheets: computed into the memo only while the memo is 0; otherwise the
     * stored value is returned, so sheets added since are not reflected.
     */
    method Sheets() returns (r: real)
      modifies this`sheets
      ensures old(sheets) == 0.0 ==> r == SheetsUpTo(items, |items|, fitness, signedArea)
      ensures old(sheets) != 0.0 ==> r == old(sheets)
      ensures sheets == r
    {
      if sheets == 0.0 {
        var i := 0;
        while i < |items|
          invariant 0 <= i <= |items|
          invariant sheets == SheetsUpTo(items, i, fitness, signedArea)
        {
          sheets := sheets + fitness(items[i]).sheets;
          if i < |items| - 1 && AnyPriority(items[i + 1].partPlacements) {
            sheets := sheets + Area(items[i].sheet, signedArea);
          }
          i := i + 1;
        }
      }
      r := sheets;
    }
  }
}
