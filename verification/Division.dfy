/** Natural-number division by products, which the solver does not do unaided. */
module Division {
  lemma MulMonotone(a: nat, b: nat, n: nat, m: nat)
    ensures a <= b && n <= m ==> a * n <= b * m
  {
    if a <= b && n <= m {
      assert a * n <= b * n && b * n <= b * m;
    }
  }

  lemma Regroup(a: nat, b: nat, c: nat)
    ensures (a * b) * c == a * (c * b) == (a * c) * b
  {}

  lemma DivLe(a: nat, m: nat, q: nat)
    requires m > 0 && a < (q + 1) * m
    ensures a / m <= q
  {
    assert a == (a / m) * m + a % m;
    MulMonotone(q + 1, a / m, m, m);
  }

  lemma DivGe(a: nat, m: nat, q: nat)
    requires m > 0 && q * m <= a
    ensures a / m >= q
  {
    assert a == (a / m) * m + a % m && a % m < m;
    assert (a / m + 1) * m == (a / m) * m + m;
    MulMonotone(a / m + 1, q, m, m);
  }

  lemma DivMonotone(a: nat, b: nat, m: nat)
    requires a <= b && m > 0
    ensures a / m <= b / m
  {
    assert b == (b / m) * m + b % m && b % m < m;
    assert (b / m + 1) * m == (b / m) * m + m;
    DivLe(a, m, b / m);
  }

  lemma QuotientAtMost(a: nat, m: nat)
    requires m > 0
    ensures a / m <= a
  {
    MulMonotone(a + 1, a + 1, 1, m);
    DivLe(a, m, a);
  }

  lemma DivShrinks(a: nat, n: nat, m: nat)
    requires n < m && a > 0
    ensures a * n / m < a
  {
    MulMonotone(a, a, n, m - 1);
    assert a * (m - 1) == a * m - a;
    DivLe(a * n, m, a - 1);
  }

  lemma BelowNextMultiple(t: nat, k: nat)
    requires k > 0
    ensures t < (t / k + 1) * k
  {
    assert t == (t / k) * k + t % k;
  }

  lemma MulStrict(a: nat, b: nat, m: nat)
    requires a < b && m > 0
    ensures a * m < b * m
  {
    MulMonotone(a + 1, b, m, m);
    assert (a + 1) * m == a * m + m;
  }
}
