/**
 * The sheet-level placement worker (PlacementWorker). It turns every part of
 * a gene to the gene's rotation, then takes sheets off a stack one at a time
 * and lets a part placement worker try every unplaced part on the sheet.
 * When priority parts are in play a sheet that already holds parts is held
 * back for a later pass, and a sheet used in a priority pass is pushed back
 * for reuse once the priority parts are done.
 *
 * Sheets are named by their position in the list the worker is given; that
 * position stands for the sheet object's identity, and the original
 * (un-offset) sheet of a sheet is the one at the same position.
 */
module Placement {
  import opened Wrappers
  import opened Geometry
  import opened Results
  import opened PartPlacing

  /** A chromosome as the worker reads it: the part and the rotation it is to be placed at. */
  datatype GenePart = GenePart(part: Nfp, rotation: real)

  // ---------------------------------------------------------------------------
  // Ids

  function GeneIds(gene: seq<GenePart>): (r: seq<int>)
    ensures |r| == |gene| && forall i :: 0 <= i < |gene| ==> r[i] == gene[i].part.id
  {
    seq(|gene|, i requires 0 <= i < |gene| => gene[i].part.id)
  }

  function PartIds(parts: seq<Nfp>): (r: seq<int>)
    ensures |r| == |parts| && forall i :: 0 <= i < |parts| ==> r[i] == parts[i].id
  {
    seq(|parts|, i requires 0 <= i < |parts| => parts[i].id)
  }

  function PlacementIds(pps: seq<PartPlacement>): (r: seq<int>)
    ensures |r| == |pps| && forall i :: 0 <= i < |pps| ==> r[i] == pps[i].id
  {
    seq(|pps|, i requires 0 <= i < |pps| => pps[i].id)
  }

  /** The Ids of every part placed on a list of used sheets, sheet by sheet. */
  function PlacedIds(sheets: seq<SheetPlacement>): seq<int>
  {
    if sheets == [] then []
    else PlacedIds(sheets[..|sheets| - 1]) + PlacementIds(sheets[|sheets| - 1].partPlacements)
  }

  /** "Parts must have unique Ids." */
  predicate DistinctGeneIds(gene: seq<GenePart>)
  {
    forall i, j :: 0 <= i < j < |gene| ==> gene[i].part.id != gene[j].part.id
  }

  /** There is one placed Id per placed part. */
  lemma {:induction false} PlacedIdsCount(sheets: seq<SheetPlacement>)
    ensures |PlacedIds(sheets)| == PlacedCount(sheets)
  {
    if sheets != [] {
      PlacedIdsCount(sheets[..|sheets| - 1]);
    }
  }

  /** Placed Ids concatenate over a concatenation of sheet lists. */
  lemma {:induction false} PlacedIdsConcat(a: seq<SheetPlacement>, b: seq<SheetPlacement>)
    ensures PlacedIds(a + b) == PlacedIds(a) + PlacedIds(b)
    decreases |b|
  {
    if b != [] {
      var n := |b| - 1;
      assert (a + b)[..|a + b| - 1] == a + b[..n];
      PlacedIdsConcat(a, b[..n]);
    } else {
      assert a + b == a;
    }
  }

  /** Taking one used sheet out takes exactly its parts' Ids out. */
  lemma PlacedIdsRemove(a: seq<SheetPlacement>, x: SheetPlacement, b: seq<SheetPlacement>)
    ensures multiset(PlacedIds(a + b)) + multiset(PlacementIds(x.partPlacements)) == multiset(PlacedIds(a + [x] + b))
  {
    PlacedIdsConcat(a + [x], b);
    PlacedIdsAppend(a, x);
    PlacedIdsConcat(a, b);
    var ids, xs, rest := PlacedIds(a), PlacementIds(x.partPlacements), PlacedIds(b);
    assert PlacedIds(a + [x] + b) == ids + xs + rest;
    assert PlacedIds(a + b) == ids + rest;
  }

  /** Adding a used sheet adds its parts' Ids. */
  lemma PlacedIdsAppend(sheets: seq<SheetPlacement>, sp: SheetPlacement)
    ensures PlacedIds(sheets + [sp]) == PlacedIds(sheets) + PlacementIds(sp.partPlacements)
  {
    assert (sheets + [sp])[..|sheets|] == sheets;
  }

  // ---------------------------------------------------------------------------
  // Preparing the parts and ordering them

  /** PrepUnplacedParts: every gene part turned to the gene's rotation, holes included. */
  function Prepared(gene: seq<GenePart>, turn: Turn): (r: seq<Nfp>)
    ensures |r| == |gene|
    ensures forall i :: 0 <= i < |gene| ==> r[i] == Rotate(gene[i].part, gene[i].rotation, Included, turn)
  {
    seq(|gene|, i requires 0 <= i < |gene| => Rotate(gene[i].part, gene[i].rotation, Included, turn))
  }

  /** The prepared parts carry exactly the gene's Ids. */
  lemma PreparedIds(gene: seq<GenePart>, turn: Turn)
    ensures PartIds(Prepared(gene, turn)) == GeneIds(gene)
  {
  }

  predicate HasPriorityPart(parts: seq<Nfp>)
  {
    exists i :: 0 <= i < |parts| && parts[i].isPriority
  }

  /** StartedAsPriorityPlacement: priority is on and some unplaced part is a priority part. */
  predicate PriorityPass(c: PlacementConfig, unplaced: seq<Nfp>)
  {
    c.usePriority && HasPriorityPart(unplaced)
  }

  /** The priority parts, in their order. */
  function PriorityParts(parts: seq<Nfp>): seq<Nfp>
  {
    if parts == [] then []
    else
      var front := PriorityParts(parts[..|parts| - 1]);
      if parts[|parts| - 1].isPriority then front + [parts[|parts| - 1]] else front
  }

  /** The other parts, in their order. */
  function OtherParts(parts: seq<Nfp>): seq<Nfp>
  {
    if parts == [] then []
    else
      var front := OtherParts(parts[..|parts| - 1]);
      if parts[|parts| - 1].isPriority then front else front + [parts[|parts| - 1]]
  }

  /** The two filters split the parts: together they hold each part once. */
  lemma {:induction false} FiltersSplit(parts: seq<Nfp>)
    ensures multiset(PriorityParts(parts)) + multiset(OtherParts(parts)) == multiset(parts)
  {
    if parts != [] {
      var front, last := parts[..|parts| - 1], parts[|parts| - 1];
      FiltersSplit(front);
      assert parts == front + [last];
    }
  }

  /** Each filter holds only its own kind of part. */
  lemma {:induction false} FiltersKinds(parts: seq<Nfp>)
    ensures forall i :: 0 <= i < |PriorityParts(parts)| ==> PriorityParts(parts)[i].isPriority
    ensures forall i :: 0 <= i < |OtherParts(parts)| ==> !OtherParts(parts)[i].isPriority
  {
    if parts != [] {
      FiltersKinds(parts[..|parts| - 1]);
    }
  }

  /**
   * The order in which a pass offers the parts: in a priority pass the
   * priority parts first, then the others (a union that drops nothing, as
   * the Ids are distinct); otherwise the unplaced parts as they stand.
   */
  function ProcessingOrder(parts: seq<Nfp>, priorityPass: bool): seq<Nfp>
  {
    if priorityPass then PriorityParts(parts) + OtherParts(parts) else parts
  }

  /** The processing order is a permutation of the unplaced parts, and outside a priority pass it is their order. */
  lemma ProcessingOrderPermutes(parts: seq<Nfp>, priorityPass: bool)
    ensures multiset(ProcessingOrder(parts, priorityPass)) == multiset(parts)
    ensures !priorityPass ==> ProcessingOrder(parts, priorityPass) == parts
  {
    FiltersSplit(parts);
  }

  /** In a priority pass no priority part is offered after a non-priority one. */
  lemma PriorityFirst(parts: seq<Nfp>)
    ensures var r := ProcessingOrder(parts, true);
      forall i, j :: 0 <= i < j < |r| && r[j].isPriority ==> r[i].isPriority
  {
    FiltersKinds(parts);
    var p, o := PriorityParts(parts), OtherParts(parts);
    var r := p + o;
    forall i, j | 0 <= i < j < |r| && r[j].isPriority
      ensures r[i].isPriority
    {
      assert j < |p|;
    }
  }

  // ---------------------------------------------------------------------------
  // Removing a placed part

  /** The first position holding x. */
  function FirstIndexOf(s: seq<Nfp>, x: Nfp): (i: nat)
    requires x in s
    ensures i < |s| && s[i] == x
  {
    if s[0] == x then 0 else 1 + FirstIndexOf(s[1..], x)
  }

  /** List.Remove: the first element equal to x taken out; the list is kept when x is absent. */
  function RemoveFirst(s: seq<Nfp>, x: Nfp): seq<Nfp>
  {
    if x in s then
      var i := FirstIndexOf(s, x);
      s[..i] + s[i + 1..]
    else s
  }

  /** Removing a present part removes one copy of it and nothing else; an absent part changes nothing. */
  lemma RemoveFirstMeaning(s: seq<Nfp>, x: Nfp)
    ensures x in s ==> multiset(RemoveFirst(s, x)) == multiset(s) - multiset{x} && |RemoveFirst(s, x)| + 1 == |s|
    ensures x !in s ==> RemoveFirst(s, x) == s
  {
    if x in s {
      var i := FirstIndexOf(s, x);
      var a, b := s[..i], s[i + 1..];
      assert s == a + [x] + b;
      Without(a, b, x);
    }
  }

  /** Removing a present part removes one copy of its Id. */
  lemma RemoveFirstIds(s: seq<Nfp>, x: Nfp)
    requires x in s
    ensures multiset(PartIds(RemoveFirst(s, x))) == multiset(PartIds(s)) - multiset{x.id}
  {
    var i := FirstIndexOf(s, x);
    var a, b := s[..i], s[i + 1..];
    assert s == a + [x] + b;
    assert RemoveFirst(s, x) == a + b;
    PartIdsConcat(a, [x]);
    PartIdsConcat(a + [x], b);
    PartIdsConcat(a, b);
    assert PartIds([x]) == [x.id];
    Without(PartIds(a), PartIds(b), x.id);
  }

  lemma PartIdsConcat(a: seq<Nfp>, b: seq<Nfp>)
    ensures PartIds(a + b) == PartIds(a) + PartIds(b)
  {
  }

  /** Taking one x out of a + [x] + b leaves a + b. */
  lemma Without<T>(a: seq<T>, b: seq<T>, x: T)
    ensures multiset(a + [x] + b) - multiset{x} == multiset(a + b)
  {
    forall y
      ensures (multiset(a + [x] + b) - multiset{x})[y] == multiset(a + b)[y]
    {
      assert multiset(a + [x] + b) == multiset(a) + multiset{x} + multiset(b);
      assert multiset(a + b) == multiset(a) + multiset(b);
    }
  }

  // ---------------------------------------------------------------------------
  // Taking the next sheet

  /** A used sheet with this reference is already in the placements. */
  predicate RefUsed(all: seq<SheetPlacement>, ref: nat)
  {
    exists k :: 0 <= k < |all| && all[k].sheetRef == ref
  }

  /** The position of the used sheet with this reference (the last, should there be several). */
  function UsedAt(all: seq<SheetPlacement>, ref: nat): (k: Option<nat>)
    ensures k.None? <==> !RefUsed(all, ref)
    ensures k.Some? ==> k.value < |all| && all[k.value].sheetRef == ref
  {
    if all == [] then Option.None
    else if all[|all| - 1].sheetRef == ref then Some(|all| - 1)
    else
      var k := UsedAt(all[..|all| - 1], ref);
      if k.Some? then Some(k.value)
      else
        assert forall j :: 0 <= j < |all| - 1 ==> all[j] == all[..|all| - 1][j];
        Option.None
  }

  /** No sheet is used twice. */
  predicate DistinctRefs(all: seq<SheetPlacement>)
  {
    forall i, j :: 0 <= i < j < |all| ==> all[i].sheetRef != all[j].sheetRef
  }

  /** Every used sheet is the sheet at its reference, paired with the original at the same reference. */
  predicate Paired(all: seq<SheetPlacement>, sheets: seq<Nfp>, originalSheets: seq<Nfp>)
  {
    forall k :: 0 <= k < |all| ==>
      all[k].sheetRef < |sheets| && all[k].sheetRef < |originalSheets| &&
      all[k].sheet == sheets[all[k].sheetRef] && all[k].originalSheet == originalSheets[all[k].sheetRef]
  }

  /** Every stacked sheet reference names a sheet. */
  predicate InRange(refs: seq<nat>, n: nat)
  {
    forall k :: 0 <= k < |refs| ==> refs[k] < n
  }

  /** What TryGetSheet yields: the sheet (if any), its placements, the requeue, and the new stack and placements. */
  datatype SheetPick = SheetPick(
    found: bool, sheet: nat, placements: seq<PartPlacement>, requeue: seq<nat>,
    stack: seq<nat>, all: seq<SheetPlacement>)

  /**
   * TryGetSheet on a stack whose top is its last element: pop sheets until
   * one is new (use it with no placements) or is used and may be refilled
   * (take it out of the placements and reuse its placements); while priority
   * parts remain (`keepBack`) a used sheet is queued for later instead.
   */
  function GetSheet(stack: seq<nat>, all: seq<SheetPlacement>, keepBack: bool, requeue: seq<nat>): SheetPick
    decreases |stack|
  {
    if stack == [] then SheetPick(false, 0, [], requeue, [], all)
    else
      var s := stack[|stack| - 1];
      var rest := stack[..|stack| - 1];
      match UsedAt(all, s)
      case None => SheetPick(true, s, [], requeue, rest, all)
      case Some(k) =>
        if keepBack then GetSheet(rest, all, keepBack, requeue + [s])
        else SheetPick(true, s, all[k].partPlacements, requeue, rest, all[..k] + all[k + 1..])
  }

  /**
   * The shape of a pick: nothing found empties the stack and leaves the
   * placements; a sheet found is either new (no placements, placements
   * untouched) or, only when no priority part remains, a used sheet taken
   * out of the placements with no requeue. While priority parts remain a
   * used sheet is never handed out.
   */
  lemma {:induction false} GetSheetShape(stack: seq<nat>, all: seq<SheetPlacement>, keepBack: bool, requeue: seq<nat>)
    ensures var p := GetSheet(stack, all, keepBack, requeue);
      (!p.found ==> p.stack == [] && p.all == all && p.placements == []) &&
      (p.found ==> |p.stack| < |stack|) &&
      (p.found && !RefUsed(all, p.sheet) ==> p.placements == [] && p.all == all) &&
      (p.found && RefUsed(all, p.sheet) ==> !keepBack && p.requeue == requeue) &&
      (keepBack && p.found ==> !RefUsed(all, p.sheet))
    decreases |stack|
  {
    if stack != [] {
      var s := stack[|stack| - 1];
      var rest := stack[..|stack| - 1];
      var k := UsedAt(all, s);
      if k.Some? && keepBack {
        GetSheetShape(rest, all, keepBack, requeue + [s]);
      }
    }
  }

  /** Every reference a pick hands out or keeps on the stack or in the requeue was on the stack or in the requeue. */
  lemma {:induction false} GetSheetRanges(stack: seq<nat>, all: seq<SheetPlacement>, keepBack: bool, requeue: seq<nat>, n: nat)
    requires InRange(stack, n) && InRange(requeue, n)
    ensures var p := GetSheet(stack, all, keepBack, requeue);
      InRange(p.stack, n) && InRange(p.requeue, n) && (p.found ==> p.sheet < n)
    decreases |stack|
  {
    if stack != [] {
      var s := stack[|stack| - 1];
      var rest := stack[..|stack| - 1];
      assert InRange(rest, n);
      if UsedAt(all, s).Some? && keepBack {
        GetSheetRanges(rest, all, keepBack, requeue + [s], n);
      }
    }
  }

  /**
   * A pick loses no placed part: the placements handed back plus the parts
   * still on used sheets are the parts that were on used sheets; the used
   * sheets stay distinct and paired, and the sheet handed out is not among
   * them.
   */
  lemma {:induction false} GetSheetKeeps(stack: seq<nat>, all: seq<SheetPlacement>, keepBack: bool, requeue: seq<nat>,
                                         sheets: seq<Nfp>, originalSheets: seq<Nfp>)
    requires DistinctRefs(all) && Paired(all, sheets, originalSheets)
    ensures var p := GetSheet(stack, all, keepBack, requeue);
      multiset(PlacedIds(p.all)) + multiset(PlacementIds(p.placements)) == multiset(PlacedIds(all)) &&
      DistinctRefs(p.all) && Paired(p.all, sheets, originalSheets) && (p.found ==> !RefUsed(p.all, p.sheet))
    decreases |stack|
  {
    if stack != [] {
      var s := stack[|stack| - 1];
      var rest := stack[..|stack| - 1];
      var k := UsedAt(all, s);
      if k.Some? {
        if keepBack {
          GetSheetKeeps(rest, all, keepBack, requeue + [s], sheets, originalSheets);
        } else {
          RemovalKeeps(all, k.value, sheets, originalSheets);
        }
      }
    }
  }

  /**
   * What a pick from a stack of sheet references guarantees: the placements
   * handed back leave the used sheets, so no placed part is lost; a sheet
   * handed out names a sheet, is not among the used sheets and shortens the
   * stack; a used sheet is handed out only when no priority part remains,
   * and then nothing is requeued; when nothing is found nothing changes but
   * the emptied stack.
   */
  lemma PickFacts(stack: seq<nat>, all: seq<SheetPlacement>, keepBack: bool, sheets: seq<Nfp>, originalSheets: seq<Nfp>)
    requires InRange(stack, |sheets|) && DistinctRefs(all) && Paired(all, sheets, originalSheets)
    ensures var p := GetSheet(stack, all, keepBack, []);
      InRange(p.stack, |sheets|) && InRange(p.requeue, |sheets|) &&
      DistinctRefs(p.all) && Paired(p.all, sheets, originalSheets) &&
      multiset(PlacedIds(p.all)) + multiset(PlacementIds(p.placements)) == multiset(PlacedIds(all)) &&
      (p.found ==> p.sheet < |sheets| && !RefUsed(p.all, p.sheet) && |p.stack| < |stack|) &&
      (p.found && p.placements != [] ==> !keepBack && p.requeue == []) &&
      (!p.found ==> p.placements == [] && p.all == all)
  {
    GetSheetShape(stack, all, keepBack, []);
    GetSheetRanges(stack, all, keepBack, [], |sheets|);
    GetSheetKeeps(stack, all, keepBack, [], sheets, originalSheets);
  }

  /** Taking the k-th used sheet out keeps the rest distinct and paired, and its reference is no longer used. */
  lemma RemovalKeeps(all: seq<SheetPlacement>, k: nat, sheets: seq<Nfp>, originalSheets: seq<Nfp>)
    requires k < |all| && DistinctRefs(all) && Paired(all, sheets, originalSheets)
    ensures var rest := all[..k] + all[k + 1..];
      multiset(PlacedIds(rest)) + multiset(PlacementIds(all[k].partPlacements)) == multiset(PlacedIds(all)) &&
      DistinctRefs(rest) && Paired(rest, sheets, originalSheets) && !RefUsed(rest, all[k].sheetRef)
  {
    RemovalIds(all, k);
    RemovalRefs(all, k);
    var rest := all[..k] + all[k + 1..];
    assert forall i :: 0 <= i < |rest| ==> rest[i] == all[if i < k then i else i + 1];
  }

  lemma RemovalRefs(all: seq<SheetPlacement>, k: nat)
    requires k < |all| && DistinctRefs(all)
    ensures var rest := all[..k] + all[k + 1..];
      DistinctRefs(rest) && !RefUsed(rest, all[k].sheetRef)
  {
    var rest := all[..k] + all[k + 1..];
    assert forall i :: 0 <= i < |rest| ==> rest[i] == all[if i < k then i else i + 1];
  }

  lemma RemovalIds(all: seq<SheetPlacement>, k: nat)
    requires k < |all|
    ensures multiset(PlacedIds(all[..k] + all[k + 1..])) + multiset(PlacementIds(all[k].partPlacements)) ==
      multiset(PlacedIds(all))
  {
    SplitAt(all, k);
    PlacedIdsRemove(all[..k], all[k], all[k + 1..]);
  }

  lemma SplitAt<T>(s: seq<T>, k: nat)
    requires k < |s|
    ensures s == s[..k] + [s[k]] + s[k + 1..]
  {
  }

  // ---------------------------------------------------------------------------
  // The stacks as written: two parallel stacks

  /** What TryGetSheet yields with a sheet stack and an original-sheet stack popped in step. */
  datatype TwoStackPick = TwoStackPick(found: bool, sheet: nat, original: nat, stack: seq<nat>, originals: seq<nat>, requeue: seq<nat>)

  /**
   * TryGetSheet as written: every pop of the sheet stack also pops the
   * original-sheet stack, and popping an empty stack throws.
   */
  function TwoStackGetSheet(stack: seq<nat>, originals: seq<nat>, all: seq<SheetPlacement>, keepBack: bool, requeue: seq<nat>): Result<TwoStackPick>
    decreases |stack|
  {
    if stack == [] then Result.Success(TwoStackPick(false, 0, 0, [], originals, requeue))
    else if originals == [] then Failure("InvalidOperationException: Stack empty.")
    else
      var s, o := stack[|stack| - 1], originals[|originals| - 1];
      var rest, restO := stack[..|stack| - 1], originals[..|originals| - 1];
      if RefUsed(all, s) && keepBack then TwoStackGetSheet(rest, restO, all, keepBack, requeue + [s])
      else Result.Success(TwoStackPick(true, s, o, rest, restO, requeue))
  }

  /** RequeueSheets as written: sheets go back onto the sheet stack only. */
  function TwoStackRequeue(stack: seq<nat>, originals: seq<nat>, sheet: nat, push: bool, requeue: seq<nat>): (seq<nat>, seq<nat>)
  {
    (stack + (if push then [sheet] else []) + requeue, originals)
  }

  /**
   * The two stacks drift apart. Two sheets, stacked so sheet 0 is on top. A
   * priority pass on sheet 0 places a part and leaves parts unplaced, so
   * sheet 0 goes back onto the sheet stack but not its original. If a
   * priority part remains, the next TryGetSheet holds sheet 0 back, pops
   * sheet 1 and finds the original stack empty: the nest throws. If only
   * other parts remain, sheet 0 is reused paired with sheet 1's original.
   */
  lemma TwoStacksMispair(s0: SheetPlacement)
    requires s0.sheetRef == 0
    ensures TwoStackGetSheet([1, 0], [1, 0], [], true, []) == Result.Success(TwoStackPick(true, 0, 0, [1], [1], []))
    ensures TwoStackRequeue([1], [1], 0, true, []) == ([1, 0], [1])
    ensures TwoStackGetSheet([1, 0], [1], [s0], true, []).Failure?
    ensures TwoStackGetSheet([1, 0], [1], [s0], false, []) == Result.Success(TwoStackPick(true, 0, 1, [1], [], []))
  {
    assert [s0][0].sheetRef == 0;
    assert RefUsed([s0], 0);
    assert [1] + [0] + [] == [1, 0];
    assert [1, 0][..1] == [1];
    assert [1, 0][..1][..0] == [];
    assert [1][..0] == [];
    assert !RefUsed([], 0);
  }

  /**
   * The same two passes on the single stack of sheet references: with a
   * priority part left sheet 0 is queued and sheet 1 handed out; with only
   * other parts left sheet 0 is reused. Each sheet's original is the one at
   * its own reference.
   */
  lemma OneStackPairs(s0: SheetPlacement)
    requires s0.sheetRef == 0
    ensures GetSheet([1, 0], [], true, []) == SheetPick(true, 0, [], [], [1], [])
    ensures GetSheet([1, 0], [s0], true, []) == SheetPick(true, 1, [], [0], [], [s0])
    ensures GetSheet([1, 0], [s0], false, []) == SheetPick(true, 0, s0.partPlacements, [], [1], [])
  {
    assert [1, 0][..1] == [1];
    assert [1][..0] == [];
    assert UsedAt([s0], 1).None?;
  }

  // ---------------------------------------------------------------------------
  // The worker

  class PlacementWorker {
    const sheets: seq<Nfp>
    const originalSheets: seq<Nfp>
    const gene: seq<GenePart>
    const config: PlacementConfig
    const engine: Engine

    /** The stack of unused sheets; its top is the last element. */
    var unusedSheets: seq<nat>
    var unplacedParts: seq<Nfp>
    var allPlacements: seq<SheetPlacement>

    /**
     * Between passes: no part is lost or duplicated (the Ids on used sheets
     * and the unplaced Ids make up the gene's Ids), every used sheet appears
     * once and is paired with its own original, and every stacked reference
     * names a sheet.
     */
    ghost predicate Valid()
      reads this
    {
      |sheets| == |originalSheets| && InRange(unusedSheets, |sheets|) &&
      DistinctRefs(allPlacements) && Paired(allPlacements, sheets, originalSheets) &&
      multiset(PlacedIds(allPlacements)) + multiset(PartIds(unplacedParts)) == multiset(GeneIds(gene))
    }

    /** The constructor's guard: the gene's part Ids are distinct. */
    constructor (sheets: seq<Nfp>, originalSheets: seq<Nfp>, gene: seq<GenePart>, config: PlacementConfig, engine: Engine)
      requires DistinctGeneIds(gene)
      ensures this.sheets == sheets && this.originalSheets == originalSheets && this.gene == gene
      ensures this.config == config && this.engine == engine
      ensures unusedSheets == [] && unplacedParts == [] && allPlacements == []
    {
      this.sheets := sheets;
      this.originalSheets := originalSheets;
      this.gene := gene;
      this.config := config;
      this.engine := engine;
      unusedSheets := [];
      unplacedParts := [];
      allPlacements := [];
    }

    /** Initialise: the sheets stacked with the first sheet on top, and the gene's parts turned. */
    method Initialise()
      requires |sheets| == |originalSheets|
      modifies this`unusedSheets, this`unplacedParts, this`allPlacements
      ensures |unusedSheets| == |sheets| && forall k :: 0 <= k < |sheets| ==> unusedSheets[k] == |sheets| - 1 - k
      ensures unplacedParts == Prepared(gene, engine.turn) && allPlacements == []
      ensures Valid()
    {
      unusedSheets := seq(|sheets|, k requires 0 <= k < |sheets| => |sheets| - 1 - k);
      allPlacements := [];
      PrepUnplacedParts();
      PreparedIds(gene, engine.turn);
    }

    /** PrepUnplacedParts: each gene part turned by its rotation, in gene order. */
    method PrepUnplacedParts()
      modifies this`unplacedParts
      ensures unplacedParts == Prepared(gene, engine.turn)
    {
      unplacedParts := [];
      for i := 0 to |gene|
        invariant unplacedParts == Prepared(gene[..i], engine.turn)
      {
        unplacedParts := unplacedParts + [Rotate(gene[i].part, gene[i].rotation, Included, engine.turn)];
      }
      assert gene[..|gene|] == gene;
    }

    /** TryGetSheet: pops sheets as GetSheet describes. */
    method TryGetSheet() returns (found: bool, sheet: nat, placements: seq<PartPlacement>, requeue: seq<nat>)
      modifies this`unusedSheets, this`allPlacements
      ensures var p := GetSheet(old(unusedSheets), old(allPlacements), PriorityPass(config, unplacedParts), []);
        found == p.found && sheet == p.sheet && placements == p.placements && requeue == p.requeue &&
        unusedSheets == p.stack && allPlacements == p.all
    {
      var keepBack := config.usePriority && HasPriorityPart(unplacedParts);
      requeue := [];
      while |unusedSheets| > 0
        invariant GetSheet(old(unusedSheets), old(allPlacements), keepBack, []) ==
          GetSheet(unusedSheets, allPlacements, keepBack, requeue)
        invariant allPlacements == old(allPlacements)
        decreases |unusedSheets|
      {
        var localSheet := unusedSheets[|unusedSheets| - 1];
        unusedSheets := unusedSheets[..|unusedSheets| - 1];
        var k := UsedAt(allPlacements, localSheet);
        if k.Some? {
          placements := allPlacements[k.value].partPlacements;
          if keepBack {
            requeue := requeue + [localSheet];
          } else {
            allPlacements := allPlacements[..k.value] + allPlacements[k.value + 1..];
            return true, localSheet, placements, requeue;
          }
        } else {
          return true, localSheet, [], requeue;
        }
      }
      return false, 0, [], requeue;
    }

    /** RequeueSheets: the sheet goes back on top after a priority pass that left parts, then the requeue in order. */
    method RequeueSheets(sheet: nat, requeue: seq<nat>, isPriorityPlacement: bool)
      modifies this`unusedSheets
      ensures unusedSheets ==
        old(unusedSheets) + (if isPriorityPlacement && |unplacedParts| > 0 then [sheet] else []) + requeue
    {
      if isPriorityPlacement && |unplacedParts| > 0 {
        unusedSheets := unusedSheets + [sheet];
      }
      ghost var base := unusedSheets;
      var queue := requeue;
      while |queue| > 0
        invariant unusedSheets + queue == base + requeue
        decreases |queue|
      {
        assert unusedSheets + queue == (unusedSheets + [queue[0]]) + queue[1..];
        unusedSheets := unusedSheets + [queue[0]];
        queue := queue[1..];
      }
      assert unusedSheets + queue == unusedSheets;
    }

    /** AddPlacement's part of the worker: the placed part leaves the unplaced parts. */
    method AddPlacement(inputPart: Nfp)
      modifies this`unplacedParts
      ensures unplacedParts == RemoveFirst(old(unplacedParts), inputPart)
    {
      unplacedParts := RemoveFirst(unplacedParts, inputPart);
    }

    /**
     * One turn of a pass: the part is offered to the part placement worker
     * and, once placed, leaves the unplaced parts. The part's Id moves from
     * the unplaced parts to the sheet's placements, and the parts still to be
     * offered remain unplaced.
     */
    method OfferPart(worker: PartPlacer, part: Nfp, ghost rest: seq<Nfp>) returns (r: Result<InnerFlowResult>)
      requires worker.Valid() && rest != [] && rest[0] == part && multiset(rest) <= multiset(unplacedParts)
      modifies worker`placements, worker`clipCache, this`unplacedParts
      ensures worker.Valid()
      ensures r.Success? ==>
        multiset(rest[1..]) <= multiset(unplacedParts) &&
        multiset(PlacementIds(worker.placements)) + multiset(PartIds(unplacedParts)) ==
          multiset(PlacementIds(old(worker.placements))) + multiset(PartIds(old(unplacedParts))) &&
        |worker.placements| + |unplacedParts| == old(|worker.placements|) + old(|unplacedParts|) &&
        |worker.placements| >= old(|worker.placements|)
    {
      ghost var before := worker.placements;
      var placed;
      r, placed := worker.ProcessPart(part);
      assert rest == [part] + rest[1..];
      if placed.Some? {
        assert part in multiset(unplacedParts);
        ghost var ids := PartIds(unplacedParts);
        assert part.id in multiset(ids);
        RemoveFirstMeaning(unplacedParts, part);
        RemoveFirstIds(unplacedParts, part);
        AddPlacement(part);
        assert PlacementIds(worker.placements) == PlacementIds(before) + [part.id];
        MoveId(PlacementIds(before), ids, part.id, PartIds(unplacedParts));
      } else {
        assert worker.placements == before;
      }
    }

    /**
     * One pass over a sheet: every part in processing order is offered to a
     * part placement worker that starts from `placements`, stopping at a
     * Break; an exception ends the pass. The parts placed leave the unplaced
     * parts, so no part is lost or duplicated, and the placements only grow.
     */
    method FillSheet(sheetRef: nat, placements: seq<PartPlacement>, isPriorityPlacement: bool)
      returns (r: Result<seq<PartPlacement>>)
      requires sheetRef < |sheets|
      modifies this`unplacedParts
      ensures r.Success? ==>
        multiset(PlacementIds(r.value)) + multiset(PartIds(unplacedParts)) ==
          multiset(PlacementIds(placements)) + multiset(PartIds(old(unplacedParts))) &&
        |r.value| >= |placements| && |unplacedParts| + |r.value| == |old(unplacedParts)| + |placements|
    {
      var worker := new PartPlacer(sheets[sheetRef], config, engine, placements);
      var processingParts := ProcessingOrder(unplacedParts, isPriorityPlacement);
      ProcessingOrderPermutes(unplacedParts, isPriorityPlacement);
      ghost var ids := multiset(PlacementIds(placements)) + multiset(PartIds(unplacedParts));
      ghost var count := |unplacedParts| + |placements|;
      var i := 0;
      while i < |processingParts|
        invariant 0 <= i <= |processingParts|
        invariant worker.Valid()
        invariant multiset(processingParts[i..]) <= multiset(unplacedParts)
        invariant multiset(PlacementIds(worker.placements)) + multiset(PartIds(unplacedParts)) == ids
        invariant |worker.placements| >= |placements|
        invariant |unplacedParts| + |worker.placements| == count
        decreases |processingParts| - i
      {
        var result := OfferPart(worker, processingParts[i], processingParts[i..]);
        if result.Failure? {
          return Failure(result.error);
        }
        assert processingParts[i..][1..] == processingParts[i + 1..];
        if result.value == InnerFlowResult.Break {
          break;
        }
        i := i + 1;
      }
      return Result.Success(worker.placements);
    }

    /**
     * One round of PlaceParts' loop: take a sheet, fill it, requeue sheets and
     * record the sheet if it holds parts. It answers whether the loop goes
     * on; when it does, the round placed a part or used up a stacked sheet,
     * and the worker stays valid.
     */
    method Round() returns (r: Result<bool>)
      requires Valid()
      modifies this`unusedSheets, this`unplacedParts, this`allPlacements
      ensures r.Success? ==> Valid()
      ensures r.Success? && r.value ==>
        |unplacedParts| < old(|unplacedParts|) ||
        (|unplacedParts| == old(|unplacedParts|) && |unusedSheets| < old(|unusedSheets|))
    {
      ghost var before := multiset(PlacedIds(allPlacements));
      ghost var unplaced0, stack0 := unplacedParts, unusedSheets;
      PickFacts(unusedSheets, allPlacements, PriorityPass(config, unplacedParts), sheets, originalSheets);
      var found, sheet, placements, requeue := TryGetSheet();
      if !found {
        return Result.Success(false);
      }
      var isPriorityPlacement := PriorityPass(config, unplacedParts);
      var filled := FillSheet(sheet, placements, isPriorityPlacement);
      if filled.Failure? {
        return Failure(filled.error);
      }
      Conserve(multiset(PlacedIds(allPlacements)), multiset(PlacementIds(filled.value)), multiset(PartIds(unplacedParts)),
               multiset(PlacementIds(placements)), multiset(PartIds(unplaced0)), before, multiset(GeneIds(gene)));
      var goOn := CloseSheet(sheet, placements, requeue, isPriorityPlacement, filled.value, |unplaced0|, |stack0|);
      return Result.Success(goOn);
    }

    /**
     * The end of a round: requeue sheets, then record the sheet if the pass
     * placed anything on it, else stop. A new sheet that received parts
     * shortens the unplaced parts; a reused sheet (taken only when no
     * priority part remains, with nothing requeued) leaves the stack shorter.
     */
    method CloseSheet(sheet: nat, placements: seq<PartPlacement>, requeue: seq<nat>, isPriorityPlacement: bool,
                      filled: seq<PartPlacement>, ghost unplacedBefore: nat, ghost stackBefore: nat)
      returns (goOn: bool)
      requires |sheets| == |originalSheets| && sheet < |sheets|
      requires InRange(unusedSheets, |sheets|) && InRange(requeue, |sheets|)
      requires DistinctRefs(allPlacements) && Paired(allPlacements, sheets, originalSheets) && !RefUsed(allPlacements, sheet)
      requires multiset(PlacedIds(allPlacements)) + multiset(PlacementIds(filled)) + multiset(PartIds(unplacedParts)) ==
        multiset(GeneIds(gene))
      requires placements == [] || (!isPriorityPlacement && requeue == [])
      requires |unusedSheets| < stackBefore
      requires |filled| >= |placements| && |unplacedParts| + |filled| == unplacedBefore + |placements|
      modifies this`unusedSheets, this`allPlacements
      ensures Valid()
      ensures goOn ==> |unplacedParts| < unplacedBefore || (|unplacedParts| == unplacedBefore && |unusedSheets| < stackBefore)
    {
      ghost var stack := unusedSheets;
      RequeueSheets(sheet, requeue, isPriorityPlacement);
      ghost var pushed := if isPriorityPlacement && |unplacedParts| > 0 then [sheet] else [];
      InRangeConcat(stack, pushed, |sheets|);
      InRangeConcat(stack + pushed, requeue, |sheets|);
      if |filled| == 0 {
        assert PlacementIds(filled) == [];
        return false;
      }
      RecordSheet(sheet, filled);
      return true;
    }

    /** Records a filled sheet as used, paired with its own original. */
    method RecordSheet(sheet: nat, filled: seq<PartPlacement>)
      requires sheet < |sheets| && |sheets| == |originalSheets|
      requires DistinctRefs(allPlacements) && Paired(allPlacements, sheets, originalSheets) && !RefUsed(allPlacements, sheet)
      modifies this`allPlacements
      ensures allPlacements == old(allPlacements) + [SheetPlacement(sheet, sheets[sheet], originalSheets[sheet], filled, 0.0)]
      ensures DistinctRefs(allPlacements) && Paired(allPlacements, sheets, originalSheets)
      ensures multiset(PlacedIds(allPlacements)) == multiset(PlacedIds(old(allPlacements))) + multiset(PlacementIds(filled))
    {
      var sp := SheetPlacement(sheet, sheets[sheet], originalSheets[sheet], filled, 0.0);
      PlacedIdsAppend(allPlacements, sp);
      AddedKeeps(allPlacements, sp, sheets, originalSheets);
      allPlacements := allPlacements + [sp];
    }

    /**
     * PlaceParts: no sheets gives no result; otherwise rounds run until every
     * part is placed, no sheet is left, or a round places nothing on a sheet.
     * The result accounts for every part of the gene exactly once, and every
     * used sheet appears once, paired with its own original.
     */
    method PlaceParts() returns (r: Result<Option<NestResult>>)
      requires |sheets| == |originalSheets|
      modifies this
      ensures |sheets| == 0 ==> r == Result.Success(Option.None)
      ensures r.Success? && r.value.Some? ==>
        Valid() && r.value.value == NestResult(|gene|, allPlacements, unplacedParts) &&
        TotalPartsCount(r.value.value) == |gene|
    {
      if |sheets| == 0 {
        return Result.Success(Option.None);
      }
      Initialise();
      while |unplacedParts| > 0
        invariant Valid()
        decreases |unplacedParts|, |unusedSheets|
      {
        var goOn := Round();
        if goOn.Failure? {
          return Failure(goOn.error);
        }
        if !goOn.value {
          break;
        }
      }
      var result := NestResult(|gene|, allPlacements, unplacedParts);
      AllCounted(allPlacements, unplacedParts, gene);
      return Result.Success(Some(result));
    }
  }

  /** When the Ids balance, so do the counts: placed parts plus unplaced parts are the gene's parts. */
  lemma AllCounted(all: seq<SheetPlacement>, unplaced: seq<Nfp>, gene: seq<GenePart>)
    requires multiset(PlacedIds(all)) + multiset(PartIds(unplaced)) == multiset(GeneIds(gene))
    ensures PlacedCount(all) + |unplaced| == |gene|
  {
    PlacedIdsCount(all);
    assert |multiset(PlacedIds(all))| + |multiset(PartIds(unplaced))| == |multiset(GeneIds(gene))|;
  }

  /** Moving one Id from one collection to another keeps their union. */
  lemma MoveId(placed: seq<int>, unplaced: seq<int>, id: int, unplaced': seq<int>)
    requires id in multiset(unplaced) && multiset(unplaced') == multiset(unplaced) - multiset{id}
    ensures multiset(placed + [id]) + multiset(unplaced') == multiset(placed) + multiset(unplaced)
  {
  }

  /** Ids taken off the used sheets, moved through a pass and put back on a used sheet are all still there. */
  lemma Conserve(rest: multiset<int>, filled: multiset<int>, unplaced: multiset<int>,
                 taken: multiset<int>, unplaced0: multiset<int>, placed0: multiset<int>, gene: multiset<int>)
    requires rest + taken == placed0 && filled + unplaced == taken + unplaced0 && placed0 + unplaced0 == gene
    ensures rest + filled + unplaced == gene
  {
    forall x
      ensures (rest + filled + unplaced)[x] == gene[x]
    {
      assert (rest + taken)[x] == placed0[x];
      assert (filled + unplaced)[x] == (taken + unplaced0)[x];
      assert (placed0 + unplaced0)[x] == gene[x];
    }
  }

  lemma InRangeConcat(a: seq<nat>, b: seq<nat>, n: nat)
    requires InRange(a, n) && InRange(b, n)
    ensures InRange(a + b, n)
  {
  }

  /** Adding a sheet not yet used, paired with its own original, keeps the used sheets distinct and paired. */
  lemma AddedKeeps(all: seq<SheetPlacement>, sp: SheetPlacement, sheets: seq<Nfp>, originalSheets: seq<Nfp>)
    requires DistinctRefs(all) && Paired(all, sheets, originalSheets) && !RefUsed(all, sp.sheetRef)
    requires sp.sheetRef < |sheets| && sp.sheetRef < |originalSheets|
    requires sp.sheet == sheets[sp.sheetRef] && sp.originalSheet == originalSheets[sp.sheetRef]
    ensures DistinctRefs(all + [sp]) && Paired(all + [sp], sheets, originalSheets)
  {
  }
}
