/** Quotients by a positive divisor. */
module Division {
  lemma MulMonotone(a: int, b: int, p: int)
    requires p > 0 && a <= b
    ensures a * p <= b * p
  {
  }

  lemma Quotient(t: int, k: int, p: int)
    requires p > 0 && k * p <= t < (k + 1) * p
    ensures t / p == k
  {
    if t / p < k {
      MulMonotone(t / p + 1, k, p);
    } else if t / p > k {
      MulMonotone(k + 1, t / p, p);
    }
  }

  lemma QuotientMonotone(a: int, b: int, p: int)
    requires p > 0 && a <= b
    ensures a / p <= b / p
  {
    if a / p > b / p {
      MulMonotone(b / p + 1, a / p, p);
    }
  }

  lemma QuotientAndRemainder(n: nat, base: nat, high: nat, low: nat)
    requires base > 0 && low < base && n == high * base + low
    ensures n / base == high && n % base == low
  {
    var d := n / base - high;
    assert d * base == low - n % base;
    assert d > 0 ==> d * base >= base;
    assert d < 0 ==> d * base + base <= 0;
  }

  lemma QuotientBelow(t: int, k: int, p: int)
    requires p > 0 && t < (k + 1) * p
    ensures t / p <= k
  {
    if t / p > k {
      MulMonotone(k + 1, t / p, p);
    }
  }

  lemma QuotientAbove(t: int, k: int, p: int)
    requires p > 0 && k * p <= t
    ensures k <= t / p
  {
    if t / p < k {
      MulMonotone(t / p + 1, k, p);
    }
  }
}
