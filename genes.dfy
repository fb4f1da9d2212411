/**
 * Genes of the genetic algorithm: a Chromosome pairs a part with the rotation
 * it is to be placed at, and a gene (DeepNestGene) is the sequence of
 * chromosomes that fixes the order in which parts are offered to the placer.
 * Chromosomes are objects: genes share them, so a rotation written through one
 * gene is seen through every other gene holding the same chromosome.
 */
module Genes {
  import opened Wrappers
  import opened Numeric
  import opened Geometry

  class Chromosome {
    /** The part; absent only after the deserialisation constructor. */
    var part: Option<Nfp>
    var rotation: real

    /** `Chromosome(part)`: a clone of the part, at the part's own rotation. */
    constructor FromPart(p: Nfp)
      ensures part == Some(Clone(p)) && rotation == p.rotation
    {
      part := Some(Clone(p));
      rotation := p.rotation;
    }

    /** The deserialisation constructor: a rotation and no part. */
    constructor FromRotation(r: real)
      ensures part.None? && rotation == r
    {
      part := Option.None;
      rotation := r;
    }

    /** `Chromosome(part, rotation)`: a clone of the part, not the part itself. */
    constructor (p: Nfp, r: real)
      ensures part == Some(Clone(p)) && rotation == r
    {
      part := Some(Clone(p));
      rotation := r;
    }

    /** Renumbers the held part; nothing else changes. */
    method SetIndex(idx: int)
      requires part.Some?
      modifies this
      ensures part == Some(old(part).value.(id := idx))
      ensures rotation == old(rotation)
    {
      part := Some(part.value.(id := idx));
    }
  }

  /** Every chromosome of the gene holds a part. */
  predicate Parted(g: seq<Chromosome>)
    reads g`part
  {
    forall c :: c in g ==> c.part.Some?
  }

  function PartId(c: Chromosome): int
    reads c`part
    requires c.part.Some?
  {
    c.part.value.id
  }

  /** No chromosome object occurs twice. */
  predicate Distinct<T(==)>(s: seq<T>)
  {
    forall i, j :: 0 <= i < j < |s| ==> s[i] != s[j]
  }

  // ---------------------------------------------------------------------------
  // DeepNestGene: a read-only view of its chromosome list

  /** `IList.IndexOf`: the first position holding the object, or -1. */
  function IndexOfChromosome(g: seq<Chromosome>, c: Chromosome): (r: int)
    ensures r == -1 <==> c !in g
    ensures r != -1 ==> 0 <= r < |g| && g[r] == c && c !in g[..r]
  {
    if |g| == 0 then -1
    else if g[0] == c then 0
    else
      var rest := IndexOfChromosome(g[1..], c);
      assert g == [g[0]] + g[1..];
      if rest == -1 then -1
      else
        assert g[..rest + 1] == [g[0]] + g[1..][..rest];
        rest + 1
  }

  /** The positions, in order, whose chromosome holds a part with the given id. */
  function Matching(g: seq<Chromosome>, partId: int): (r: seq<nat>)
    reads g`part
    requires Parted(g)
    ensures forall k :: 0 <= k < |r| ==> r[k] < |g| && PartId(g[r[k]]) == partId
    ensures forall i :: 0 <= i < |g| && PartId(g[i]) == partId ==> i in r
    ensures forall a, b :: 0 <= a < b < |r| ==> r[a] < r[b]
    decreases |g|
  {
    if |g| == 0 then []
    else
      var n := |g| - 1;
      var prev := Matching(g[..n], partId);
      assert forall i :: 0 <= i < n ==> g[..n][i] == g[i];
      if PartId(g[n]) == partId then prev + [n] else prev
  }

  /**
   * `IndexOf(partId)`: LINQ's Single picks the one chromosome with that part
   * id (failing when there is none or more than one), and its position is
   * returned.
   */
  function IndexOfPartId(g: seq<Chromosome>, partId: int): (r: Result<nat>)
    reads g`part
    requires Parted(g)
    ensures r.Success? ==> r.value < |g|
  {
    var m := Matching(g, partId);
    if |m| == 0 then Result<nat>.Failure("Sequence contains no matching element")
    else if |m| > 1 then Result<nat>.Failure("Sequence contains more than one matching element")
    else
      assert g[m[0]] in g;
      Success(IndexOfChromosome(g, g[m[0]]))
  }

  /**
   * The position found holds the one chromosome with that part id; a
   * failure means there is no such chromosome or there are two.
   */
  lemma IndexOfPartIdMeaning(g: seq<Chromosome>, partId: int)
    requires Parted(g)
    ensures var r := IndexOfPartId(g, partId);
      (r.Success? ==> PartId(g[r.value]) == partId) &&
      (r.Success? ==> forall i :: 0 <= i < |g| && PartId(g[i]) == partId ==> i == r.value) &&
      (r.Failure? ==>
        (forall i :: 0 <= i < |g| ==> PartId(g[i]) != partId) ||
        (exists i, j :: 0 <= i < j < |g| && PartId(g[i]) == partId && PartId(g[j]) == partId))
  {
    var m := Matching(g, partId);
    if |m| == 0 {
      NoMatch(g, partId);
    } else if |m| > 1 {
      TwoMatches(g, partId);
    } else {
      assert g[m[0]] in g;
      SingleMatch(g, partId, m, IndexOfChromosome(g, g[m[0]]));
    }
  }

  lemma NoMatch(g: seq<Chromosome>, partId: int)
    requires Parted(g) && |Matching(g, partId)| == 0
    ensures forall i :: 0 <= i < |g| ==> PartId(g[i]) != partId
  {
    var m := Matching(g, partId);
    assert forall i :: 0 <= i < |g| && PartId(g[i]) == partId ==> i in m;
  }

  lemma TwoMatches(g: seq<Chromosome>, partId: int)
    requires Parted(g) && |Matching(g, partId)| > 1
    ensures exists i, j :: 0 <= i < j < |g| && PartId(g[i]) == partId && PartId(g[j]) == partId
  {
    var m := Matching(g, partId);
    assert PartId(g[m[0]]) == partId && PartId(g[m[1]]) == partId;
  }

  lemma SingleMatch(g: seq<Chromosome>, partId: int, m: seq<nat>, i: int)
    requires Parted(g) && m == Matching(g, partId) && |m| == 1
    requires 0 <= i < |g| && g[i] == g[m[0]]
    ensures PartId(g[i]) == partId
    ensures forall j :: 0 <= j < |g| && PartId(g[j]) == partId ==> j == i
  {
    assert PartId(g[m[0]]) == partId;
    assert i in m;
    forall j | 0 <= j < |g| && PartId(g[j]) == partId
      ensures j == i
    {
      assert j in m;
    }
  }

  // ---------------------------------------------------------------------------
  // Signatures

  /**
   * The string a gene is recorded under in the ancestor set: its part ids
   * joined by commas, then its rotations joined by commas. Both lists have
   * the gene's length, so the string determines the pair of lists and the
   * pair stands for the string.
   */
  datatype Signature = Signature(ids: seq<int>, rotations: seq<real>)

  function SignatureOf(g: seq<Chromosome>): (s: Signature)
    reads g
    requires Parted(g)
    ensures |s.ids| == |g| && |s.rotations| == |g|
    ensures forall k :: 0 <= k < |g| ==> s.ids[k] == PartId(g[k]) && s.rotations[k] == g[k].rotation
  {
    Signature(seq(|g|, k reads g requires 0 <= k < |g| && Parted(g) => PartId(g[k])),
              seq(|g|, k reads g requires 0 <= k < |g| => g[k].rotation))
  }

  /** Genes with the same chromosomes in the same order have the same signature. */
  lemma SameGeneSameSignature(g: seq<Chromosome>, h: seq<Chromosome>)
    requires Parted(g) && g == h
    ensures SignatureOf(g) == SignatureOf(h)
  {
  }

  // ---------------------------------------------------------------------------
  // Mutation: adjacent swaps

  /** The chromosome order after the first k steps of the swap pass. */
  function SwapsUpTo<T>(g: seq<T>, swapDraws: seq<real>, threshold: real, k: nat): (r: seq<T>)
    requires k <= |g| && |swapDraws| == |g|
    ensures |r| == |g|
  {
    if k == 0 then g
    else
      var s := SwapsUpTo(g, swapDraws, threshold, k - 1);
      var i := k - 1;
      if swapDraws[i] < threshold && i + 1 < |g| then SwapAdjacent(s, i) else s
  }

  function SwapAdjacent<T>(s: seq<T>, i: nat): (r: seq<T>)
    requires i + 1 < |s|
    ensures |r| == |s|
    ensures r[i] == s[i + 1] && r[i + 1] == s[i]
    ensures forall j :: 0 <= j < |s| && j != i && j != i + 1 ==> r[j] == s[j]
  {
    s[i := s[i + 1]][i + 1 := s[i]]
  }

  /** A swap exchanges two elements and keeps the rest: the same multiset. */
  lemma SwapAdjacentPermutes<T>(s: seq<T>, i: nat)
    requires i + 1 < |s|
    ensures multiset(SwapAdjacent(s, i)) == multiset(s)
  {
    var r := SwapAdjacent(s, i);
    assert r == s[i := s[i + 1]][i + 1 := s[i]];
  }

  /** One step of the swap pass keeps the chromosomes. */
  lemma SwapStepPermutes<T>(g: seq<T>, swapDraws: seq<real>, threshold: real, k: nat)
    requires 0 < k <= |g| && |swapDraws| == |g|
    ensures multiset(SwapsUpTo(g, swapDraws, threshold, k)) == multiset(SwapsUpTo(g, swapDraws, threshold, k - 1))
  {
    var s := SwapsUpTo(g, swapDraws, threshold, k - 1);
    if swapDraws[k - 1] < threshold && k < |g| {
      SwapAdjacentPermutes(s, k - 1);
    }
  }

  /** However many swaps are made, the gene keeps exactly its chromosomes. */
  lemma {:induction false} SwapsPermute<T>(g: seq<T>, swapDraws: seq<real>, threshold: real, k: nat)
    requires k <= |g| && |swapDraws| == |g|
    ensures multiset(SwapsUpTo(g, swapDraws, threshold, k)) == multiset(g)
  {
    if k > 0 {
      SwapStepPermutes(g, swapDraws, threshold, k);
      SwapsPermute(g, swapDraws, threshold, k - 1);
    }
  }

  /**
   * With no swap draw under the threshold (in particular with a mutation rate
   * of 0) the order is unchanged.
   */
  lemma {:induction false} NoSwapKeepsOrder<T>(g: seq<T>, swapDraws: seq<real>, threshold: real, k: nat)
    requires k <= |g| && |swapDraws| == |g|
    requires forall i :: 0 <= i < |g| ==> swapDraws[i] >= threshold
    ensures SwapsUpTo(g, swapDraws, threshold, k) == g
  {
    if k > 0 {
      NoSwapKeepsOrder(g, swapDraws, threshold, k - 1);
    }
  }

  // ---------------------------------------------------------------------------
  // Crossover: completing a gene from a prefix

  /** LINQ's `Any(z => z.Part.Id == id)` over the prefix. */
  function AnyHasId(prefix: seq<Chromosome>, id: int): (r: bool)
    reads prefix`part
    requires Parted(prefix)
    decreases |prefix|
  {
    if |prefix| == 0 then false
    else if PartId(prefix[0]) == id then true
    else AnyHasId(prefix[1..], id)
  }

  /** Any holds exactly when some chromosome of the prefix holds the id. */
  lemma {:induction false} AnyHasIdMeaning(prefix: seq<Chromosome>, id: int)
    requires Parted(prefix)
    ensures AnyHasId(prefix, id) <==> exists z :: z in prefix && PartId(z) == id
    decreases |prefix|
  {
    if |prefix| > 0 {
      assert prefix == [prefix[0]] + prefix[1..];
      AnyHasIdMeaning(prefix[1..], id);
    }
  }

  /**
   * The chromosomes of the supplicant, in its order, whose part id does not
   * occur in the initiant's prefix.
   */
  function Missing(prefix: seq<Chromosome>, supplicant: seq<Chromosome>): (r: seq<Chromosome>)
    reads prefix`part, supplicant`part
    requires Parted(prefix) && Parted(supplicant)
    ensures |r| <= |supplicant|
    decreases |supplicant|
  {
    if |supplicant| == 0 then []
    else
      var n := |supplicant| - 1;
      var prev := Missing(prefix, supplicant[..n]);
      if AnyHasId(prefix, PartId(supplicant[n])) then prev else prev + [supplicant[n]]
  }

  /** `Array.Resize`: the first n elements, padded with nulls. */
  function Resized(s: seq<Chromosome>, n: nat): (r: seq<Chromosome?>)
    ensures |r| == n
  {
    seq(n, k requires 0 <= k < n => if k < |s| then s[k] else null)
  }

  lemma ResizedAppend(s: seq<Chromosome>, x: Chromosome, n: nat)
    requires |s| < n
    ensures Resized(s + [x], n) == Resized(s, n)[|s| := x]
  {
  }

  /** Resizing to the exact length keeps every element: no slot is null. */
  lemma ResizedExact(s: seq<Chromosome>)
    ensures Resized(s, |s|) == s
  {
  }

  /** The missing chromosomes fit behind the prefix, or there are none to write. */
  predicate Fits(prefix: seq<Chromosome>, supplicant: seq<Chromosome>)
    reads prefix`part, supplicant`part
    requires Parted(prefix) && Parted(supplicant)
  {
    |Missing(prefix, supplicant)| == 0 || |prefix| + |Missing(prefix, supplicant)| <= |supplicant|
  }

  /**
   * CompleteGene: the prefix, then every missing chromosome of the supplicant
   * in the supplicant's order, in an array the supplicant's length. Writing
   * past that length throws (`ok` is false); too few missing chromosomes
   * leave null slots at the end.
   */
  method CompleteGene(prefix: seq<Chromosome>, supplicant: seq<Chromosome>) returns (ok: bool, child: seq<Chromosome?>)
    requires Parted(prefix) && Parted(supplicant)
    ensures ok <==> Fits(prefix, supplicant)
    ensures ok ==> child == Resized(prefix + Missing(prefix, supplicant), |supplicant|)
  {
    var n := |supplicant|;
    var result := Resized(prefix, n);
    assert supplicant[..0] == [];
    assert prefix + [] == prefix;
    var idx := |prefix|;
    for i := 0 to n
      invariant idx == |prefix| + |Missing(prefix, supplicant[..i])|
      invariant |Missing(prefix, supplicant[..i])| == 0 || idx <= n
      invariant result == Resized(prefix + Missing(prefix, supplicant[..i]), n)
    {
      CompleteStep(prefix, supplicant, i);
      if !AnyHasId(prefix, PartId(supplicant[i])) {
        if idx >= n {
          Overflow(prefix, supplicant, i);
          return false, [];
        }
        result := result[idx := supplicant[i]];
        idx := idx + 1;
      }
    }
    assert supplicant[..n] == supplicant;
    return true, result;
  }

  /** One step of CompleteGene's loop: a missing chromosome goes into the next free slot. */
  lemma CompleteStep(prefix: seq<Chromosome>, supplicant: seq<Chromosome>, i: nat)
    requires Parted(prefix) && Parted(supplicant) && i < |supplicant|
    ensures AnyHasId(prefix, PartId(supplicant[i])) ==>
      Missing(prefix, supplicant[..i + 1]) == Missing(prefix, supplicant[..i])
    ensures !AnyHasId(prefix, PartId(supplicant[i])) ==>
      Missing(prefix, supplicant[..i + 1]) == Missing(prefix, supplicant[..i]) + [supplicant[i]]
    ensures (!AnyHasId(prefix, PartId(supplicant[i])) && |prefix| + |Missing(prefix, supplicant[..i])| < |supplicant|) ==>
      Resized(prefix + Missing(prefix, supplicant[..i + 1]), |supplicant|) ==
      Resized(prefix + Missing(prefix, supplicant[..i]), |supplicant|)[|prefix| + |Missing(prefix, supplicant[..i])| := supplicant[i]]
  {
    assert supplicant[..i + 1][..i] == supplicant[..i];
    var before := Missing(prefix, supplicant[..i]);
    if !AnyHasId(prefix, PartId(supplicant[i])) && |prefix| + |before| < |supplicant| {
      assert prefix + (before + [supplicant[i]]) == (prefix + before) + [supplicant[i]];
      ResizedAppend(prefix + before, supplicant[i], |supplicant|);
    }
  }

  /** A missing chromosome with no free slot left means the whole supplicant does not fit. */
  lemma Overflow(prefix: seq<Chromosome>, supplicant: seq<Chromosome>, i: nat)
    requires Parted(prefix) && Parted(supplicant) && i < |supplicant|
    requires !AnyHasId(prefix, PartId(supplicant[i]))
    requires |prefix| + |Missing(prefix, supplicant[..i])| >= |supplicant|
    ensures !Fits(prefix, supplicant)
  {
    CompleteStep(prefix, supplicant, i);
    MissingGrows(prefix, supplicant, i + 1);
  }

  /** The missing chromosomes of a longer supplicant prefix include those of a shorter one. */
  lemma {:induction false} MissingGrows(prefix: seq<Chromosome>, supplicant: seq<Chromosome>, k: nat)
    requires Parted(prefix) && Parted(supplicant) && k <= |supplicant|
    ensures |Missing(prefix, supplicant[..k])| <= |Missing(prefix, supplicant)|
    decreases |supplicant|
  {
    if k < |supplicant| {
      var n := |supplicant| - 1;
      assert supplicant[..n][..k] == supplicant[..k];
      MissingGrows(prefix, supplicant[..n], k);
    } else {
      assert supplicant[..k] == supplicant;
    }
  }

  // ---------------------------------------------------------------------------
  // Crossover of two permutations

  /**
   * The chromosomes of a first gene: part i holds id i, so distinct objects
   * hold distinct ids.
   */
  predicate Numbered(adam: seq<Chromosome>)
    reads adam`part
  {
    forall i :: 0 <= i < |adam| ==> adam[i].part.Some? && adam[i].part.value.id == i
  }

  /** A gene is a permutation of the first gene. */
  predicate PermutationOf(g: seq<Chromosome>, adam: seq<Chromosome>)
  {
    multiset(g) == multiset(adam)
  }

  lemma NumberedDistinct(adam: seq<Chromosome>)
    requires Numbered(adam)
    ensures Distinct(adam)
  {
    forall i, j | 0 <= i < j < |adam|
      ensures adam[i] != adam[j]
    {
      assert PartId(adam[i]) == i && PartId(adam[j]) == j;
    }
  }

  /** A permutation of the first gene holds parts, and every chromosome of it is one of the first gene's. */
  lemma PermutationFacts(g: seq<Chromosome>, adam: seq<Chromosome>)
    requires Numbered(adam) && PermutationOf(g, adam)
    ensures Parted(g) && Distinct(g)
    ensures forall c :: c in g ==> c in adam
    ensures forall c :: c in g ==> 0 <= PartId(c) < |adam| && adam[PartId(c)] == c
    ensures forall c :: c in adam ==> c in g
  {
    forall c | c in g
      ensures c in adam
    {
      assert c in multiset(g);
    }
    forall c | c in adam
      ensures c in g
    {
      assert c in multiset(adam);
    }
    forall c | c in g
      ensures 0 <= PartId(c) < |adam| && adam[PartId(c)] == c
    {
      var i :| 0 <= i < |adam| && adam[i] == c;
    }
    NumberedDistinct(adam);
    DistinctCounts(adam);
    forall i, j | 0 <= i < j < |g|
      ensures g[i] != g[j]
    {
      if g[i] == g[j] {
        TwiceCounted(g, i, j);
        assert false;
      }
    }
  }

  /**
   * The positions in the first gene of a gene's chromosomes. It needs no
   * heap: for an ordering of a numbered first gene it is the ids half of
   * the gene's signature, which rerolling rotations leaves alone.
   */
  function Order(g: seq<Chromosome>, adam: seq<Chromosome>): (r: seq<int>)
    ensures |r| == |g|
  {
    seq(|g|, k requires 0 <= k < |g| => IndexOfChromosome(adam, g[k]))
  }

  lemma SignatureOrder(g: seq<Chromosome>, adam: seq<Chromosome>)
    requires Numbered(adam) && PermutationOf(g, adam)
    ensures Parted(g) && SignatureOf(g).ids == Order(g, adam)
  {
    PermutationFacts(g, adam);
    forall k | 0 <= k < |g|
      ensures SignatureOf(g).ids[k] == Order(g, adam)[k]
    {
      assert g[k] in g;
      var r := IndexOfChromosome(adam, g[k]);
      assert adam[PartId(g[k])] == g[k];
      assert r != -1 && adam[r] == g[k];
    }
  }

  /** A sequence without repetitions holds each element at most once. */
  lemma {:induction false} DistinctCounts<T>(s: seq<T>)
    requires Distinct(s)
    ensures forall x :: multiset(s)[x] <= 1
  {
    if |s| > 0 {
      var n := |s| - 1;
      assert s == s[..n] + [s[n]];
      DistinctCounts(s[..n]);
      assert s[n] !in s[..n];
      assert multiset(s) == multiset(s[..n]) + multiset{s[n]};
    }
  }

  lemma TwiceCounted<T>(s: seq<T>, i: nat, j: nat)
    requires i < j < |s| && s[i] == s[j]
    ensures multiset(s)[s[i]] >= 2
  {
    assert s == s[..j] + s[j..];
    assert s[i] in s[..j];
    assert s[j] in s[j..];
    assert multiset(s) == multiset(s[..j]) + multiset(s[j..]);
  }

  /** The supplicant's elements that are not in the prefix, compared as objects. */
  function Without<T(==)>(s: seq<T>, prefix: seq<T>): (r: seq<T>)
    ensures forall x :: x in r ==> x in s && x !in prefix
    decreases |s|
  {
    if |s| == 0 then []
    else
      var n := |s| - 1;
      if s[n] in prefix then Without(s[..n], prefix) else Without(s[..n], prefix) + [s[n]]
  }

  lemma {:induction false} WithoutCounts<T>(s: seq<T>, prefix: seq<T>, x: T)
    ensures multiset(Without(s, prefix))[x] == if x in prefix then 0 else multiset(s)[x]
    decreases |s|
  {
    if |s| > 0 {
      var n := |s| - 1;
      assert s == s[..n] + [s[n]];
      WithoutCounts(s[..n], prefix, x);
    }
  }

  /** Within permutations of the first gene, "no chromosome of the prefix has its part id" means "not in the prefix". */
  lemma {:induction false} MissingIsWithout(prefix: seq<Chromosome>, supplicant: seq<Chromosome>, adam: seq<Chromosome>)
    requires Numbered(adam)
    requires forall c :: c in prefix ==> c in adam
    requires forall c :: c in supplicant ==> c in adam
    ensures Parted(prefix) && Parted(supplicant)
    ensures Missing(prefix, supplicant) == Without(supplicant, prefix)
    decreases |supplicant|
  {
    assert forall c :: c in prefix ==> 0 <= PartId(c) < |adam| && adam[PartId(c)] == c by {
      forall c | c in prefix
        ensures 0 <= PartId(c) < |adam| && adam[PartId(c)] == c
      {
        var i :| 0 <= i < |adam| && adam[i] == c;
      }
    }
    if |supplicant| > 0 {
      var n := |supplicant| - 1;
      var x := supplicant[n];
      assert x in supplicant;
      assert forall c :: c in supplicant[..n] ==> c in supplicant;
      MissingIsWithout(prefix, supplicant[..n], adam);
      AnyHasIdMeaning(prefix, PartId(x));
      if AnyHasId(prefix, PartId(x)) {
        var z :| z in prefix && PartId(z) == PartId(x);
        assert z == adam[PartId(z)] == x;
      }
    }
  }

  /** A prefix followed by the rest of another permutation is a permutation. */
  lemma PrefixThenRest<T>(p: seq<T>, g2: seq<T>, a: seq<T>)
    requires multiset(g2) == multiset(a)
    requires forall x :: multiset(a)[x] <= 1
    requires multiset(p) <= multiset(a)
    ensures multiset(p + Without(g2, p)) == multiset(a)
  {
    var joined := multiset(p + Without(g2, p));
    assert joined == multiset(p) + multiset(Without(g2, p));
    forall x
      ensures joined[x] == multiset(a)[x]
    {
      WithoutCounts(g2, p, x);
      if x in p {
        assert x in multiset(p);
      } else {
        assert x !in multiset(p);
      }
    }
    MultisetsAgree(joined, multiset(a));
  }

  lemma MultisetsAgree<T>(m: multiset<T>, n: multiset<T>)
    requires forall x :: m[x] == n[x]
    ensures m == n
  {
  }

  /**
   * Completing a prefix of one permutation of the first gene from another
   * permutation never throws, fills every slot, and yields a permutation
   * again: every part id occurs exactly once in the child.
   */
  lemma CrossoverIsPermutation(g1: seq<Chromosome>, g2: seq<Chromosome>, adam: seq<Chromosome>, cut: nat)
    requires Numbered(adam) && PermutationOf(g1, adam) && PermutationOf(g2, adam)
    requires cut <= |g1|
    ensures Parted(g1[..cut]) && Parted(g2)
    ensures |g1[..cut]| + |Missing(g1[..cut], g2)| == |g2|
    ensures PermutationOf(g1[..cut] + Missing(g1[..cut], g2), adam)
  {
    PermutationFacts(g1, adam);
    PermutationFacts(g2, adam);
    var p := g1[..cut];
    assert g1 == p + g1[cut..];
    assert multiset(g1) == multiset(p) + multiset(g1[cut..]);
    assert forall c :: c in p ==> c in g1;
    MissingIsWithout(p, g2, adam);
    NumberedDistinct(adam);
    DistinctCounts(adam);
    PrefixThenRest(p, g2, adam);
    assert |multiset(p + Without(g2, p))| == |p + Without(g2, p)|;
  }
}
