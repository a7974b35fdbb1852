/**
 Blob fees: the capped, saturating `fake_exponential` of the transaction manager against the unbounded one of
 EIP-4844, section "Helpers".
 */
module BlobFee {
  import opened Basics
  import opened Division
  import opened FeeTerms

  const MAX_U128: nat := 0xffff_ffff_ffff_ffff_ffff_ffff_ffff_ffff

  type u128 = x: int | 0 <= x <= MAX_U128

  const MIN_BLOB_GASPRICE: u128 := 1
  const BLOB_GASPRICE_UPDATE_FRACTION: u64 := 3338477

  /** The loop adds at most this many terms. */
  const MAX_TERMS: nat := 100

  function SatMul(a: nat, b: nat): u128 {
    if a * b > MAX_U128 then MAX_U128 else a * b
  }

  function SatAdd(a: nat, b: nat): u128 {
    if a + b > MAX_U128 then MAX_U128 else a + b
  }

  // ------------------------------------------------------------ the unbounded original

  lemma MeasureFalls(acc: nat, num: nat, den: nat, i: nat)
    requires den > 0 && i > 0 && acc > 0
    ensures den * (i + 1) > den * i > 0
    ensures SaturatingSub(num + 1, den * (i + 1)) < SaturatingSub(num + 1, den * i)
      || (SaturatingSub(num + 1, den * (i + 1)) == SaturatingSub(num + 1, den * i) && acc * num / (den * i) < acc)
  {
    assert den * (i + 1) == den * i + den;
    MulMonotone(1, den, 1, i);
    if den * i > num {
      DivShrinks(acc, num, den * i);
    }
  }

  /** The sum of the original's loop from term `acc` with counter `i` on; it stops at the first zero term. */
  function ExactFrom(acc: nat, num: nat, den: nat, i: nat): nat
    requires den > 0 && i > 0
    decreases SaturatingSub(num + 1, den * i), acc
  {
    if acc == 0 then 0
    else
      MeasureFalls(acc, num, den, i);
      acc + ExactFrom(acc * num / (den * i), num, den, i + 1)
  }

  /** EIP-4844's fake_exponential. */
  function Eip4844(factor: nat, num: nat, den: nat): nat
    requires den > 0
  {
    ExactFrom(factor * den, num, den, 1) / den
  }

  /** Term `k` of the original's sum. */
  function ExactTerm(factor: nat, num: nat, den: nat, k: nat): nat
    requires den > 0
  {
    if k == 0 then factor * den else ExactTerm(factor, num, den, k - 1) * num / (den * k)
  }

  /** The first `k` terms together. */
  function ExactSum(factor: nat, num: nat, den: nat, k: nat): nat
    requires den > 0
  {
    if k == 0 then 0 else ExactSum(factor, num, den, k - 1) + ExactTerm(factor, num, den, k - 1)
  }

  lemma OneTermOn(t: nat, num: nat, den: nat, k: nat)
    requires den > 0 && k > 0
    ensures ExactFrom(t, num, den, k) == t + ExactFrom(t * num / (den * k), num, den, k + 1)
  {
    if t == 0 {
      NothingOfNothing(num, den * k);
    }
  }

  lemma NothingOfNothing(num: nat, m: nat)
    requires m > 0
    ensures 0 * num / m == 0
  {}

  lemma {:induction false} ExactIsPartialPlusRest(factor: nat, num: nat, den: nat, k: nat)
    requires den > 0
    ensures ExactFrom(factor * den, num, den, 1)
            == ExactSum(factor, num, den, k) + ExactFrom(ExactTerm(factor, num, den, k), num, den, k + 1)
  {
    if k > 0 {
      ExactIsPartialPlusRest(factor, num, den, k - 1);
      OneTermOn(ExactTerm(factor, num, den, k - 1), num, den, k);
    }
  }

  // ------------------------------------------------------------ the program's version

  function Term(factor: nat, num: nat, den: nat, k: nat): u128
    requires den > 0
  {
    if k == 0 then SatMul(factor, den)
    else
      Quotient(SatMul(Term(factor, num, den, k - 1), num), den * k)
  }

  function Quotient(a: u128, m: nat): u128
    requires m > 0
  {
    assert a / m <= a by { QuotientAtMost(a, m); }
    a / m
  }

  function CappedSum(factor: nat, num: nat, den: nat, k: nat): u128
    requires den > 0
  {
    if k == 0 then 0 else SatAdd(CappedSum(factor, num, den, k - 1), Term(factor, num, den, k - 1))
  }

  /** A zero term ends the sum: all later ones are zero. */
  lemma {:induction false} ZeroStays(factor: nat, num: nat, den: nat, k: nat, n: nat)
    requires den > 0 && k <= n && Term(factor, num, den, k) == 0
    ensures Term(factor, num, den, n) == 0
    ensures CappedSum(factor, num, den, n) == CappedSum(factor, num, den, k)
  {
    if k < n {
      ZeroStays(factor, num, den, k, n - 1);
      assert 0 / (den * n) == 0;
    }
  }

  /** The loop with its early exit and its safety stop computes the saturating sum of the first hundred terms. */
  method FakeExponential(factor: u128, numerator: u64, denominator: u64) returns (r: u128)
    requires denominator > 0
    ensures r == CappedSum(factor, numerator, denominator, MAX_TERMS) / denominator
  {
    var output: u128 := 0;
    var accum: u128 := SatMul(factor, denominator);
    var i: nat := 1;
    while true
      invariant 1 <= i <= MAX_TERMS
      invariant output == CappedSum(factor, numerator, denominator, i - 1)
      invariant accum == Term(factor, numerator, denominator, i - 1)
      decreases MAX_TERMS - i
    {
      output := SatAdd(output, accum);
      var next := Quotient(SatMul(accum, numerator), denominator * i);
      if next > 0 {
        accum := next;
      } else {
        ZeroStays(factor, numerator, denominator, i, MAX_TERMS);
        break;
      }
      i := i + 1;
      if i > MAX_TERMS {
        break;
      }
    }
    r := Quotient(output, denominator);
  }

  // ------------------------------------------------------------ order and bounds

  lemma {:induction false} TermMonotone(f: nat, g: nat, n: nat, m: nat, den: nat, k: nat)
    requires den > 0 && f <= g && n <= m
    ensures Term(f, n, den, k) <= Term(g, m, den, k)
  {
    if k == 0 {
      MulMonotone(f, g, den, den);
    } else {
      TermMonotone(f, g, n, m, den, k - 1);
      MulMonotone(Term(f, n, den, k - 1), Term(g, m, den, k - 1), n, m);
      DivMonotone(SatMul(Term(f, n, den, k - 1), n), SatMul(Term(g, m, den, k - 1), m), den * k);
    }
  }

  lemma {:induction false} SumMonotone(f: nat, g: nat, n: nat, m: nat, den: nat, k: nat)
    requires den > 0 && f <= g && n <= m
    ensures CappedSum(f, n, den, k) <= CappedSum(g, m, den, k)
  {
    if k > 0 {
      SumMonotone(f, g, n, m, den, k - 1);
      TermMonotone(f, g, n, m, den, k - 1);
    }
  }

  function Fee(factor: nat, num: nat, den: nat): nat
    requires den > 0
  {
    CappedSum(factor, num, den, MAX_TERMS) / den
  }

  /** Monotone in the factor and in the numerator, saturation, rounding and the stop included. */
  lemma FeeMonotone(f: nat, g: nat, n: nat, m: nat, den: nat)
    requires den > 0 && f <= g && n <= m
    ensures Fee(f, n, den) <= Fee(g, m, den)
  {
    SumMonotone(f, g, n, m, den, MAX_TERMS);
    DivMonotone(CappedSum(f, n, den, MAX_TERMS), CappedSum(g, m, den, MAX_TERMS), den);
  }

  lemma {:induction false} SumAtLeastFirst(f: nat, n: nat, den: nat, k: nat)
    requires den > 0 && k > 0
    ensures CappedSum(f, n, den, k) >= Term(f, n, den, 0)
  {
    if k == 1 {
      assert CappedSum(f, n, den, 0) == 0;
    } else {
      SumAtLeastFirst(f, n, den, k - 1);
    }
  }

  /** With the numerator at most the denominator each term after the second is at most half its predecessor. */
  lemma TermHalves(f: nat, n: nat, den: nat, k: nat)
    requires den > 0 && n <= den && k >= 1
    ensures Term(f, n, den, k) <= Term(f, n, den, k - 1)
    ensures k >= 2 ==> 2 * Term(f, n, den, k) <= Term(f, n, den, k - 1)
  {
    StepDivides(Term(f, n, den, k - 1), n, den, k);
    HalfAtLeast(Term(f, n, den, k - 1), k);
  }

  lemma StepDivides(t: nat, n: nat, den: nat, k: nat)
    requires den > 0 && n <= den && k >= 1
    ensures Quotient(SatMul(t, n), den * k) <= t / k
  {
    MulMonotone(t, t, n, den);
    DivMonotone(SatMul(t, n), t * den, den * k);
    CancelDenominator(t, den, k);
  }

  lemma HalfAtLeast(t: nat, k: nat)
    requires k >= 1
    ensures t / k <= t
    ensures k >= 2 ==> 2 * (t / k) <= t
  {
    QuotientAtMost(t, k);
    assert t == (t / k) * k + t % k;
    MulMonotone(t / k, t / k, 2, k);
  }

  lemma CancelDenominator(t: nat, den: nat, k: nat)
    requires den > 0 && k > 0
    ensures t * den / (den * k) <= t / k
  {
    var q := t / k;
    BelowNextMultiple(t, k);
    MulStrict(t, (q + 1) * k, den);
    Regroup(q + 1, k, den);
    DivLe(t * den, den * k, q);
  }

  lemma {:induction false} SumAtMostThrice(f: nat, n: nat, den: nat, k: nat)
    requires den > 0 && n <= den && k >= 1
    ensures CappedSum(f, n, den, k) + 2 * Term(f, n, den, k) <= 3 * Term(f, n, den, 0)
  {
    TermHalves(f, n, den, k);
    if k == 1 {
      assert CappedSum(f, n, den, 0) == 0;
    } else {
      SumAtMostThrice(f, n, den, k - 1);
    }
  }

  /** The fee is at least the factor unless factor * denominator saturates, and at most three times it up to e^1. */
  lemma FeeBounds(factor: nat, num: nat, den: nat)
    requires den > 0
    ensures factor * den <= MAX_U128 ==> Fee(factor, num, den) >= factor
    ensures num <= den ==> Fee(factor, num, den) <= 3 * factor
  {
    if factor * den <= MAX_U128 {
      SumAtLeastFirst(factor, num, den, MAX_TERMS);
      DivGe(CappedSum(factor, num, den, MAX_TERMS), den, factor);
    }
    if num <= den {
      SumAtMostThrice(factor, num, den, MAX_TERMS);
      ThriceDivided(CappedSum(factor, num, den, MAX_TERMS), factor, den);
    }
  }

  lemma ThriceDivided(sum: nat, factor: nat, den: nat)
    requires den > 0 && sum <= 3 * SatMul(factor, den)
    ensures sum / den <= 3 * factor
  {
    assert (3 * factor + 1) * den == 3 * (factor * den) + den;
    DivLe(sum, den, 3 * factor);
  }

  // ------------------------------------------------------------ when the two agree

  lemma {:induction false} ExactMonotone(f: nat, n: nat, m: nat, den: nat, k: nat)
    requires den > 0 && n <= m
    ensures ExactTerm(f, n, den, k) <= ExactTerm(f, m, den, k)
  {
    if k > 0 {
      ExactMonotone(f, n, m, den, k - 1);
      MulMonotone(ExactTerm(f, n, den, k - 1), ExactTerm(f, m, den, k - 1), n, m);
      DivMonotone(ExactTerm(f, n, den, k - 1) * n, ExactTerm(f, m, den, k - 1) * m, den * k);
    }
  }

  /** Saturation only ever makes terms and sums smaller. */
  lemma {:induction false} CappedAtMostExact(f: nat, n: nat, den: nat, k: nat)
    requires den > 0
    ensures Term(f, n, den, k) <= ExactTerm(f, n, den, k)
    ensures CappedSum(f, n, den, k) <= ExactSum(f, n, den, k)
  {
    if k > 0 {
      CappedAtMostExact(f, n, den, k - 1);
      MulMonotone(Term(f, n, den, k - 1), ExactTerm(f, n, den, k - 1), n, n);
      DivMonotone(SatMul(Term(f, n, den, k - 1), n), ExactTerm(f, n, den, k - 1) * n, den * k);
    }
  }

  /** No product and no partial sum of the first `k` terms leaves the 128-bit range. */
  predicate FitsU128(f: nat, n: nat, den: nat, k: nat)
    requires den > 0
  {
    f * den <= MAX_U128 && ExactSum(f, n, den, k) <= MAX_U128
    && forall j :: 0 <= j < k ==> ExactTerm(f, n, den, j) * n <= MAX_U128
  }

  lemma {:induction false} CappedIsExact(f: nat, n: nat, den: nat, k: nat)
    requires den > 0 && FitsU128(f, n, den, k)
    ensures Term(f, n, den, k) == ExactTerm(f, n, den, k)
    ensures CappedSum(f, n, den, k) == ExactSum(f, n, den, k)
  {
    if k > 0 {
      CappedIsExact(f, n, den, k - 1);
      assert ExactTerm(f, n, den, k - 1) * n <= MAX_U128;
    }
  }

  /** For any arguments whose first hundred terms fit: the stop loses nothing exactly when term 100 is zero. */
  lemma CapLosesNothingIff(f: nat, n: nat, den: nat)
    requires den > 0 && FitsU128(f, n, den, MAX_TERMS)
    ensures CappedSum(f, n, den, MAX_TERMS) == ExactFrom(f * den, n, den, 1) <==> ExactTerm(f, n, den, MAX_TERMS) == 0
  {
    CappedIsExact(f, n, den, MAX_TERMS);
    ExactIsPartialPlusRest(f, n, den, MAX_TERMS);
  }

  lemma {:induction false} SumMonotoneExact(f: nat, n: nat, m: nat, den: nat, k: nat)
    requires den > 0 && n <= m
    ensures ExactSum(f, n, den, k) <= ExactSum(f, m, den, k)
  {
    if k > 0 {
      SumMonotoneExact(f, n, m, den, k - 1);
      ExactMonotone(f, n, m, den, k - 1);
    }
  }

  lemma FitsBelow(f: nat, n: nat, m: nat, den: nat)
    requires den > 0 && n <= m && FitsU128(f, m, den, MAX_TERMS)
    ensures FitsU128(f, n, den, MAX_TERMS)
  {
    SumMonotoneExact(f, n, m, den, MAX_TERMS);
    forall j | 0 <= j < MAX_TERMS ensures ExactTerm(f, n, den, j) * n <= MAX_U128 {
      ExactMonotone(f, n, m, den, j);
      MulMonotone(ExactTerm(f, n, den, j), ExactTerm(f, m, den, j), n, m);
      assert ExactTerm(f, m, den, j) * m <= MAX_U128;
    }
  }

  /** Where the program agrees with the original, it also does for every smaller numerator. */
  lemma AgreesBelow(f: nat, n: nat, m: nat, den: nat)
    requires den > 0 && n <= m && FitsU128(f, m, den, MAX_TERMS) && ExactTerm(f, m, den, MAX_TERMS) == 0
    ensures Fee(f, n, den) == Eip4844(f, n, den)
  {
    FitsBelow(f, n, m, den);
    ExactMonotone(f, n, m, den, MAX_TERMS);
    CapLosesNothingIff(f, n, den);
  }

  function Series(n: nat): (term: nat -> nat)
    ensures IsSeries(term, n)
  {
    var term := (k: nat) => ExactTerm(1, n, 3338477, k);
    assert IsSeries(term, n) by {
      forall i: nat ensures StepAt(term, n, i) {
      }
    }
    term
  }

  // ------------------------------------------------------------ the blob fee itself

  function Pow(b: nat, e: nat): nat {
    if e == 0 then 1 else b * Pow(b, e - 1)
  }

  lemma {:induction false} PowMonotone(b: nat, e: nat, g: nat)
    requires b > 0 && e <= g
    ensures Pow(b, e) <= Pow(b, g)
  {
    if e < g {
      PowMonotone(b, e, g - 1);
      MulMonotone(Pow(b, g - 1), Pow(b, g - 1), 1, b);
    }
  }

  /** From term `a` on, each term is at most `c` times its predecessor. */
  lemma {:induction false} Growth(f: nat, n: nat, den: nat, c: nat, a: nat, j: nat)
    requires den > 0 && n <= c * (den * (a + 1))
    ensures ExactTerm(f, n, den, a + j) <= ExactTerm(f, n, den, a) * Pow(c, j)
  {
    if j > 0 {
      Growth(f, n, den, c, a, j - 1);
      var t, first, p := ExactTerm(f, n, den, a + j - 1), ExactTerm(f, n, den, a), Pow(c, j - 1);
      GrowthStep(t, n, den, c, a, a + j);
      MulMonotone(t, first * p, c, c);
      Regroup(first, p, c);
    }
  }

  lemma GrowthStep(t: nat, n: nat, den: nat, c: nat, a: nat, k: nat)
    requires den > 0 && n <= c * (den * (a + 1)) && k > a
    ensures t * n / (den * k) <= t * c
  {
    var m := den * k;
    MulMonotone(1, den, 1, k);
    MulMonotone(den, den, a + 1, k);
    MulMonotone(c, c, den * (a + 1), m);
    MulMonotone(t, t, n, c * m);
    assert t * (c * m) == (t * c) * m;
    assert (t * c + 1) * m == (t * c) * m + m;
    DivLe(t * n, m, t * c);
  }

  const TERM_BOUND: nat := 3338477 * 1406408618241 * 0x1_0000_0000

  lemma SmallPowers()
    ensures Pow(33, 8) == 1406408618241 && Pow(4, 8) == 0x1_0000 && Pow(2, 16) == 0x1_0000
  {
    assert Pow(33, 4) == 1185921;
    assert Pow(4, 4) == 256;
    assert Pow(2, 8) == 256;
  }

  lemma {:induction false} PowOne(j: nat)
    ensures Pow(1, j) == 1
  {
    if j > 0 {
      PowOne(j - 1);
    }
  }

  lemma NeverLarger(f: nat, n: nat, den: nat, a: nat, j: nat)
    requires den > 0 && n <= den * (a + 1)
    ensures ExactTerm(f, n, den, a + j) <= ExactTerm(f, n, den, a)
  {
    Growth(f, n, den, 1, a, j);
    PowOne(j);
  }

  lemma EarlyTerms(k: nat)
    requires k <= 8
    ensures ExactTerm(1, LAST_EXACT, 3338477, k) <= 3338477 * 1406408618241
  {
    SmallPowers();
    assert ExactTerm(1, LAST_EXACT, 3338477, 0) == 3338477;
    Growth(1, LAST_EXACT, 3338477, 33, 0, k);
    PowMonotone(33, k, 8);
  }

  lemma MiddleTerms(j: nat)
    requires j <= 8
    ensures ExactTerm(1, LAST_EXACT, 3338477, 8 + j) <= 3338477 * 1406408618241 * 0x1_0000
  {
    SmallPowers();
    EarlyTerms(8);
    Growth(1, LAST_EXACT, 3338477, 4, 8, j);
    PowMonotone(4, j, 8);
    MulMonotone(ExactTerm(1, LAST_EXACT, 3338477, 8), 3338477 * 1406408618241, Pow(4, j), Pow(4, 8));
  }

  lemma LateTerms(m: nat, j: nat)
    requires m == 16 && j <= 16
    ensures ExactTerm(1, LAST_EXACT, 3338477, m + j) <= TERM_BOUND
  {
    SmallPowers();
    MiddleTerms(m - 8);
    Growth(1, LAST_EXACT, 3338477, 2, m, j);
    PowMonotone(2, j, 16);
    MulMonotone(ExactTerm(1, LAST_EXACT, 3338477, m), 3338477 * 1406408618241 * 0x1_0000, Pow(2, j), Pow(2, 16));
  }

  lemma TermsAreBounded(k: nat)
    ensures ExactTerm(1, LAST_EXACT, 3338477, k) <= TERM_BOUND
  {
    if k <= 8 {
      EarlyTerms(k);
    } else if k <= 16 {
      MiddleTerms(k - 8);
    } else {
      var m := Min(k, 32);
      LateTerms(16, m - 16);
      if k > m {
        NeverLarger(1, LAST_EXACT, 3338477, m, k - m);
      }
    }
  }

  lemma {:induction false} SumsAreBounded(k: nat)
    ensures ExactSum(1, LAST_EXACT, 3338477, k) <= k * TERM_BOUND
  {
    if k > 0 {
      SumsAreBounded(k - 1);
      TermsAreBounded(k - 1);
      assert k * TERM_BOUND == (k - 1) * TERM_BOUND + TERM_BOUND;
    }
  }

  lemma ProductFits(j: nat)
    ensures ExactTerm(1, LAST_EXACT, 3338477, j) * LAST_EXACT <= MAX_U128
  {
    TermsAreBounded(j);
    MulMonotone(ExactTerm(1, LAST_EXACT, 3338477, j), TERM_BOUND, LAST_EXACT, LAST_EXACT);
  }

  lemma LastExactFits()
    ensures FitsU128(1, LAST_EXACT, 3338477, MAX_TERMS)
  {
    SumsAreBounded(MAX_TERMS);
    forall j | 0 <= j < MAX_TERMS ensures ExactTerm(1, LAST_EXACT, 3338477, j) * LAST_EXACT <= MAX_U128 {
      ProductFits(j);
    }
  }

  /** For every excess up to the limit no product saturates, no term is cut off, and the fee is EIP-4844's. */
  lemma BlobFeeIsExact(excess: nat)
    requires excess <= LAST_EXACT
    ensures Fee(MIN_BLOB_GASPRICE, excess, BLOB_GASPRICE_UPDATE_FRACTION)
            == Eip4844(MIN_BLOB_GASPRICE, excess, BLOB_GASPRICE_UPDATE_FRACTION)
  {
    LastExactFits();
    LastExactTerm(Series(LAST_EXACT));
    AgreesBelow(1, excess, LAST_EXACT, 3338477);
  }

  /** Over all excesses: the sum the program divides is the original's exactly up to the limit. */
  lemma BlobSumExactIff(excess: nat)
    ensures CappedSum(1, excess, 3338477, MAX_TERMS) == ExactFrom(3338477, excess, 3338477, 1) <==> excess <= LAST_EXACT
  {
    assert 1 * 3338477 == 3338477;
    if excess <= LAST_EXACT {
      LastExactFits();
      LastExactTerm(Series(LAST_EXACT));
      FitsBelow(1, excess, LAST_EXACT, 3338477);
      ExactMonotone(1, excess, LAST_EXACT, 3338477, MAX_TERMS);
      CapLosesNothingIff(1, excess, 3338477);
    } else {
      FirstInexactTerm(Series(LAST_EXACT + 1));
      ExactMonotone(1, LAST_EXACT + 1, excess, 3338477, MAX_TERMS);
      AtLeastOneTermMore(1, excess, 3338477);
    }
  }

  /** From this excess on the program's fee is strictly below the original's, saturated or not. */
  lemma BlobFeeIsTooLow(excess: nat)
    requires excess >= SURELY_LOW
    ensures Fee(MIN_BLOB_GASPRICE, excess, BLOB_GASPRICE_UPDATE_FRACTION)
            < Eip4844(MIN_BLOB_GASPRICE, excess, BLOB_GASPRICE_UPDATE_FRACTION)
  {
    assert 1 * 3338477 == 3338477;
    WholeTerm(Series(SURELY_LOW));
    ExactMonotone(1, SURELY_LOW, excess, 3338477, MAX_TERMS);
    AtLeastOneTermMore(1, excess, 3338477);
  }

  /** What the stop cuts off is at least the next term. */
  lemma AtLeastOneTermMore(f: nat, n: nat, den: nat)
    requires den > 0
    ensures CappedSum(f, n, den, MAX_TERMS) + ExactTerm(f, n, den, MAX_TERMS) <= ExactFrom(f * den, n, den, 1)
  {
    CappedAtMostExact(f, n, den, MAX_TERMS);
    ExactIsPartialPlusRest(f, n, den, MAX_TERMS);
  }

  /** Without excess the original gives back the factor; the program does exactly when the first product fits. */
  lemma ZeroExcessIff(factor: nat, den: nat)
    requires den > 0
    ensures Eip4844(factor, 0, den) == factor
    ensures Fee(factor, 0, den) == factor <==> factor * den <= MAX_U128
  {
    assert factor * den * 0 / den == 0;
    assert ExactFrom(factor * den * 0 / (den * 1), 0, den, 2) == 0;
    DivGe(factor * den, den, factor);
    assert factor * den < (factor + 1) * den;
    DivLe(factor * den, den, factor);
    OnlyFirstTerm(factor, den);
    if factor * den > MAX_U128 {
      MulMonotone(factor, 0, den, den);
      DivLe(MAX_U128, den, factor - 1);
    }
  }

  lemma OnlyFirstTerm(factor: nat, den: nat)
    requires den > 0
    ensures CappedSum(factor, 0, den, MAX_TERMS) == SatMul(factor, den)
  {
    QuotientAtMost(0, den);
    assert Term(factor, 0, den, 0) * 0 == 0;
    assert Term(factor, 0, den, 1) == 0;
    assert CappedSum(factor, 0, den, 0) == 0;
    ZeroStays(factor, 0, den, 1, MAX_TERMS);
  }
}
