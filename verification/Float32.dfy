/** 32-bit floats as bit patterns, with the two orders the search mixes.

    `f32::total_cmp` is totalOrder (section 5.10 of IEEE 754-2008) and ranks
    the heap; `<`, `<=`, `>=` are the comparison predicates (section 5.11) and
    decide suppression and pruning. Away from NaN they differ only on -0.0 and
    +0.0. */
module Float32 {
  type Bits = x: int | 0 <= x < 0x1_0000_0000

  /** The bits below the sign. */
  function Magnitude(b: Bits): int {
    if b >= 0x8000_0000 then b - 0x8000_0000 else b
  }

  predicate IsNan(b: Bits) {
    Magnitude(b) > 0x7F80_0000
  }

  /** A score or a floor: any float but NaN, which every entry point refuses. */
  type Score = b: Bits | !IsNan(b) witness 0

  const NEG_INFINITY: Score := 0xFF80_0000
  const POS_ZERO: Score := 0
  const NEG_ZERO: Score := 0x8000_0000

  /** Position in totalOrder: the sign-magnitude pattern read as an integer,
      with every negative pattern one lower so that -0.0 precedes +0.0. */
  function TotalKey(b: Score): int {
    if b >= 0x8000_0000 then 0x8000_0000 - b - 1 else b
  }

  /** Position under the comparison predicates, where both zeros are one value. */
  function NumericKey(b: Score): int {
    if b >= 0x8000_0000 then 0x8000_0000 - b else b
  }

  predicate Lt(a: Score, b: Score) {
    NumericKey(a) < NumericKey(b)
  }

  predicate Le(a: Score, b: Score) {
    NumericKey(a) <= NumericKey(b)
  }

  /** totalOrder is injective and refines the numeric order; the two part
      company on exactly one pair of values. */
  lemma OrdersDisagreeOnlyOnZeros(a: Score, b: Score)
    ensures TotalKey(a) == TotalKey(b) ==> a == b
    ensures TotalKey(a) <= TotalKey(b) ==> Le(a, b)
    ensures TotalKey(a) < TotalKey(b) && !Lt(a, b) <==> a == NEG_ZERO && b == POS_ZERO
  {
  }

  lemma NegInfinityIsLeast(a: Score)
    ensures Le(NEG_INFINITY, a)
  {
    assert !IsNan(a);
  }

  lemma NegInfinityIsBelowAll()
    ensures forall a: Score :: Le(NEG_INFINITY, a)
  {
    forall a: Score ensures Le(NEG_INFINITY, a) { NegInfinityIsLeast(a); }
  }

  // ---- What the patterns denote ----

  function Pow2(n: nat): nat {
    if n == 0 then 1 else 2 * Pow2(n - 1)
  }

  /** The number a pattern without its sign denotes, in units of 2^-149: an
      8-bit exponent over a 23-bit fraction, with a hidden bit unless the exponent
      is 0 (section 3.4 of IEEE 754-2008). Infinity comes out above every finite
      number. */
  function Units(magnitude: nat): nat {
    var exponent, fraction := magnitude / 0x80_0000, magnitude % 0x80_0000;
    if exponent == 0 then fraction else (0x80_0000 + fraction) * Pow2(exponent - 1)
  }

  /** One more in the pattern is one more unit up to 2^24, and from there the step
      doubles wherever the exponent goes up. */
  lemma UnitsStep(m: nat)
    ensures m <= 0x100_0000 ==> Units(m) == m
    ensures Units(m + 0x80_0000) == if m < 0x80_0000 then m + 0x80_0000 else 2 * Units(m)
  {
    var e, f := m / 0x80_0000, m % 0x80_0000;
    assert (m + 0x80_0000) / 0x80_0000 == e + 1 && (m + 0x80_0000) % 0x80_0000 == f;
    if e == 0 {
      assert Pow2(0) == 1 && Units(m + 0x80_0000) == 0x80_0000 + f;
    } else {
      Doubled(0x80_0000 + f, Pow2(e - 1));
      assert Pow2(e) == 2 * Pow2(e - 1);
      if m <= 0x100_0000 { assert Pow2(0) == 1 && Pow2(1) == 2; }
    }
  }

  lemma Doubled(a: nat, x: nat)
    ensures a * (2 * x) == 2 * (a * x)
  {
  }

  function Value(b: Score): int {
    if b < 0x8000_0000 then Units(b) else -(Units(b - 0x8000_0000) as int)
  }

  lemma {:induction false} Pow2Grows(m: nat, n: nat)
    requires m <= n
    ensures 1 <= Pow2(m) <= Pow2(n)
    decreases n
  {
    if m < n { Pow2Grows(m, n - 1); } else if n > 0 { Pow2Grows(m - 1, n - 1); }
  }

  lemma ProductGrows(a: nat, b: nat, x: nat, y: nat)
    requires a <= b && x <= y
    ensures a * x <= b * y
  {
    assert a * x <= b * x <= b * y;
  }

  lemma ProductGrowsStrictly(a: nat, b: nat, x: nat)
    requires a < b && 0 < x
    ensures a * x < b * x
  {
  }

  /** Magnitudes are ordered as the numbers they denote. */
  lemma UnitsGrow(m: nat, n: nat)
    requires m < n
    ensures Units(m) < Units(n)
  {
    var e, f, d, g := m / 0x80_0000, m % 0x80_0000, n / 0x80_0000, n % 0x80_0000;
    if e == d {
      if e > 0 {
        Pow2Grows(0, e - 1);
        ProductGrowsStrictly(0x80_0000 + f, 0x80_0000 + g, Pow2(e - 1));
      }
    } else if e == 0 {
      Pow2Grows(0, d - 1);
      ProductGrows(0x80_0000, 0x80_0000 + g, 1, Pow2(d - 1));
    } else {
      Pow2Grows(0, e - 1);
      Pow2Grows(e, d - 1);
      ProductGrowsStrictly(0x80_0000 + f, 0x100_0000, Pow2(e - 1));
      ProductGrows(0x80_0000, 0x80_0000 + g, Pow2(e), Pow2(d - 1));
      assert Pow2(e) == 2 * Pow2(e - 1);
    }
  }

  /** The comparison predicates compare the numbers denoted. */
  lemma ComparesValues(a: Score, b: Score)
    ensures Le(a, b) <==> Value(a) <= Value(b)
    ensures Lt(a, b) <==> Value(a) < Value(b)
  {
    var m, n := Magnitude(a), Magnitude(b);
    if m < n { UnitsGrow(m, n); } else if n < m { UnitsGrow(n, m); }
    if 0 < m { UnitsGrow(0, m); }
    if 0 < n { UnitsGrow(0, n); }
  }

  /** NaN is an exponent of all ones over a fraction other than 0. */
  lemma NanIsByPattern(b: Bits)
    ensures IsNan(b) <==> b / 0x80_0000 % 256 == 255 && b % 0x80_0000 != 0
  {
    var m := Magnitude(b);
    assert b == m || b == m + 256 * 0x80_0000;
    assert m / 0x80_0000 <= 255 && b / 0x80_0000 % 256 == m / 0x80_0000 && b % 0x80_0000 == m % 0x80_0000;
  }
}
