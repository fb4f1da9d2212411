/** DbCacheKey: the key under which a pair's inner NFPs are stored in the window cache. */
module CacheKeys {
  import opened Wrappers
  import opened Numeric
  import opened Geometry

  /** A, B are nullable ids; `keyType` is never assigned and so stays 0. */
  datatype DbCacheKey = DbCacheKey(a: Option<int>, b: Option<int>, aRotation: real, bRotation: real,
                                   nfp: Option<seq<Nfp>>, keyType: int)

  /** The five-argument constructor: the NFPs are copied into a new array. */
  function NewCacheKeyWithNfps(a: Option<int>, b: Option<int>, aRotation: real, bRotation: real, nfps: seq<Nfp>): (k: DbCacheKey)
    ensures k.a == a && k.b == b && k.aRotation == aRotation && k.bRotation == bRotation
    ensures k.nfp == Some(nfps) && k.keyType == 0
  {
    DbCacheKey(a, b, aRotation, bRotation, Some(nfps), 0)
  }

  /** The four-argument constructor leaves Nfp null. */
  function NewCacheKey(a: Option<int>, b: Option<int>, aRotation: real, bRotation: real): (k: DbCacheKey)
    ensures k.a == a && k.b == b && k.aRotation == aRotation && k.bRotation == bRotation
    ensures k.nfp.None? && k.keyType == 0
  {
    DbCacheKey(a, b, aRotation, bRotation, Option.None, 0)
  }

  /** `StringBuilder.Append(int?)`: a null appends nothing. */
  function OptionalIntText(v: Option<int>): (s: string)
    ensures Numeral(s)
    ensures |s| == 0 <==> v.None?
  {
    match v
    case None => ""
    case Some(i) => IntToStringNumeral(i); IntToString(i)
  }

  /** A rotation as it appears in the key: `(int)Math.Round(rotation * 10000)`. */
  function RotationKey(rotation: real): int
  {
    RoundHalfEven(rotation * 10000.0)
  }

  /** "A{A}B{B}Arot{rot A}Brot{rot B};{Type}". */
  function Key(k: DbCacheKey): string
  {
    "A" + (OptionalIntText(k.a) + ("B" + (OptionalIntText(k.b) + ("Arot" + (IntToString(RotationKey(k.aRotation)) +
      ("Brot" + (IntToString(RotationKey(k.bRotation)) + (";" + IntToString(k.keyType)))))))))
  }

  /** Keys with the same ids and the same rounded rotations are the same string, whatever the NFPs. */
  lemma KeyDependsOnlyOnRoundedFields(k1: DbCacheKey, k2: DbCacheKey)
    requires k1.a == k2.a && k1.b == k2.b && k1.keyType == k2.keyType
    requires RotationKey(k1.aRotation) == RotationKey(k2.aRotation)
    requires RotationKey(k1.bRotation) == RotationKey(k2.bRotation)
    ensures Key(k1) == Key(k2)
  {
  }

  /** Conversely, equal key strings mean equal ids, rounded rotations and types: the cache never confuses two pairs. */
  lemma KeyInjective(k1: DbCacheKey, k2: DbCacheKey)
    requires Key(k1) == Key(k2)
    ensures k1.a == k2.a && k1.b == k2.b && k1.keyType == k2.keyType
    ensures RotationKey(k1.aRotation) == RotationKey(k2.aRotation)
    ensures RotationKey(k1.bRotation) == RotationKey(k2.bRotation)
  {
    var ra1, ra2 := RotationKey(k1.aRotation), RotationKey(k2.aRotation);
    var rb1, rb2 := RotationKey(k1.bRotation), RotationKey(k2.bRotation);
    IntToStringNumeral(ra1); IntToStringNumeral(ra2);
    IntToStringNumeral(rb1); IntToStringNumeral(rb2);
    var t5a, t5b := ";" + IntToString(k1.keyType), ";" + IntToString(k2.keyType);
    var t4a, t4b := "Brot" + (IntToString(rb1) + t5a), "Brot" + (IntToString(rb2) + t5b);
    var t3a, t3b := "Arot" + (IntToString(ra1) + t4a), "Arot" + (IntToString(ra2) + t4b);
    var t2a, t2b := "B" + (OptionalIntText(k1.b) + t3a), "B" + (OptionalIntText(k2.b) + t3b);
    var t1a, t1b := OptionalIntText(k1.a) + t2a, OptionalIntText(k2.a) + t2b;
    assert Key(k1) == "A" + t1a && Key(k2) == "A" + t1b;
    assert t1a == ("A" + t1a)[1..] && t1b == ("A" + t1b)[1..];
    SplitNumeral(OptionalIntText(k1.a), t2a, OptionalIntText(k2.a), t2b);
    OptionalIntTextInjective(k1.a, k2.a);
    var u2a, u2b := OptionalIntText(k1.b) + t3a, OptionalIntText(k2.b) + t3b;
    assert u2a == t2a[1..] && u2b == t2b[1..];
    SplitNumeral(OptionalIntText(k1.b), t3a, OptionalIntText(k2.b), t3b);
    OptionalIntTextInjective(k1.b, k2.b);
    var u3a, u3b := IntToString(ra1) + t4a, IntToString(ra2) + t4b;
    assert u3a == t3a[4..] && u3b == t3b[4..];
    SplitNumeral(IntToString(ra1), t4a, IntToString(ra2), t4b);
    IntToStringInjective(ra1, ra2);
    var u4a, u4b := IntToString(rb1) + t5a, IntToString(rb2) + t5b;
    assert u4a == t4a[4..] && u4b == t4b[4..];
    SplitNumeral(IntToString(rb1), t5a, IntToString(rb2), t5b);
    IntToStringInjective(rb1, rb2);
    assert IntToString(k1.keyType) == t5a[1..] && IntToString(k2.keyType) == t5b[1..];
    IntToStringInjective(k1.keyType, k2.keyType);
  }

  // ---------------------------------------------------------------------------
  // Reading a number back off the front of a string

  predicate IsNumeral(c: char) { '0' <= c <= '9' || c == '-' }

  predicate Numeral(s: string) { forall i :: 0 <= i < |s| ==> IsNumeral(s[i]) }

  /** The length of the run of numeral characters a string starts with. */
  function NumeralRun(s: string): (n: nat)
    ensures n <= |s|
  {
    if |s| == 0 || !IsNumeral(s[0]) then 0 else 1 + NumeralRun(s[1..])
  }

  lemma {:induction false} NumeralRunOf(x: string, t: string)
    requires Numeral(x) && |t| > 0 && !IsNumeral(t[0])
    ensures NumeralRun(x + t) == |x|
    decreases |x|
  {
    if |x| == 0 {
      assert x + t == t;
    } else {
      assert (x + t)[1..] == x[1..] + t;
      NumeralRunOf(x[1..], t);
    }
  }

  /** A numeral followed by a non-numeral character splits uniquely. */
  lemma SplitNumeral(x1: string, t1: string, x2: string, t2: string)
    requires Numeral(x1) && Numeral(x2)
    requires |t1| > 0 && |t2| > 0 && !IsNumeral(t1[0]) && !IsNumeral(t2[0])
    requires x1 + t1 == x2 + t2
    ensures x1 == x2 && t1 == t2
  {
    NumeralRunOf(x1, t1);
    NumeralRunOf(x2, t2);
    assert x1 == (x1 + t1)[..|x1|];
    assert x2 == (x2 + t2)[..|x2|];
    assert t1 == (x1 + t1)[|x1|..];
    assert t2 == (x2 + t2)[|x2|..];
  }

  lemma IntToStringNumeral(i: int)
    ensures Numeral(IntToString(i))
  {
  }

  lemma NatToStringSingle(n: nat)
    ensures |NatToString(n)| == 1 <==> n < 10
  {
    if n >= 10 {
      assert |NatToString(n)| == |NatToString(n / 10)| + 1;
    }
  }

  /** Different naturals print differently. */
  lemma {:induction false} NatToStringInjective(n: nat, m: nat)
    requires NatToString(n) == NatToString(m)
    ensures n == m
    decreases n
  {
    NatToStringSingle(n);
    NatToStringSingle(m);
    if n >= 10 {
      var s := NatToString(n);
      assert s[..|s| - 1] == NatToString(n / 10) && s[|s| - 1] == DigitChar(n % 10);
      assert s[..|s| - 1] == NatToString(m / 10) && s[|s| - 1] == DigitChar(m % 10);
      NatToStringInjective(n / 10, m / 10);
    } else {
      assert NatToString(n)[0] == DigitChar(n) && NatToString(m)[0] == DigitChar(m);
    }
  }

  /** Different integers print differently. */
  lemma IntToStringInjective(i: int, j: int)
    requires IntToString(i) == IntToString(j)
    ensures i == j
  {
    if i >= 0 {
      assert j >= 0;
      NatToStringInjective(i, j);
    } else {
      assert j < 0;
      assert NatToString(-i) == IntToString(i)[1..] && NatToString(-j) == IntToString(j)[1..];
      NatToStringInjective(-i, -j);
    }
  }

  lemma OptionalIntTextInjective(u: Option<int>, v: Option<int>)
    requires OptionalIntText(u) == OptionalIntText(v)
    ensures u == v
  {
    if u.Some? {
      assert v.Some?;
      IntToStringInjective(u.value, v.value);
    }
  }
}
