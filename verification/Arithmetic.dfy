/** Quotients and remainders. */
module Arithmetic {
  import opened Outcomes

  lemma QuotientUnique(n: int, size: nat, q: int, r: int)
    requires size > 0 && n == q * size + r && 0 <= r < size
    ensures n / size == q && n % size == r
  {
    var q', r' := n / size, n % size;
    assert n == q' * size + r';
    if q' < q {
      assert (q - q') * size >= size by { TimesAtLeast(q - q', size); }
    } else if q' > q {
      assert (q' - q) * size >= size by { TimesAtLeast(q' - q, size); }
    }
  }

  lemma TimesAtLeast(k: int, size: nat)
    requires k >= 1
    ensures k * size >= size
  {
    assert k * size == (k - 1) * size + size;
  }

  lemma DivStep(len: nat, size: nat)
    requires size > 0 && len > 0
    ensures len / size == (len - 1) / size + if len % size == 0 then 1 else 0
  {
    var q, r := len / size, len % size;
    assert len == q * size + r;
    if r == 0 {
      assert len - 1 == (q - 1) * size + (size - 1);
      QuotientUnique(len - 1, size, q - 1, size - 1);
    } else {
      QuotientUnique(len - 1, size, q, r - 1);
    }
  }

  lemma CeilStep(n: nat, size: nat)
    requires size > 0
    ensures CeilDiv(n, size) == n / size + if n % size == 0 then 0 else 1
  {
    var q, r := n / size, n % size;
    assert n == q * size + r;
    if r == 0 {
      QuotientUnique(n + size - 1, size, q, size - 1);
    } else {
      assert n + size - 1 == (q + 1) * size + (r - 1);
      QuotientUnique(n + size - 1, size, q + 1, r - 1);
    }
  }

  lemma DivMonotone(a: nat, b: nat, size: nat)
    requires size > 0 && a <= b
    ensures a / size <= b / size
    decreases b - a
  {
    if a < b {
      DivStep(b, size);
      DivMonotone(a, b - 1, size);
    }
  }

  /** A multiple of `m` beyond `i` is beyond the whole block of `m` that holds `i`. */
  lemma MultipleAbove(i: nat, m: nat, n: nat)
    requires m > 0 && i < n && n % m == 0
    ensures i - i % m + m <= n
  {
    var k, b := i / m, n / m;
    assert b > k by {
      if b <= k {
        TimesMonotone(b, k, m);
      }
    }
    assert n == k * m + (b - k) * m;
    TimesAtLeast(b - k, m);
  }

  lemma TimesMonotone(a: int, b: int, m: nat)
    requires a <= b
    ensures a * m <= b * m
  {
    assert b * m == a * m + (b - a) * m;
  }

  /** A shift that stays within the block of `m` shifts the remainder alike. */
  lemma RemainderShift(i: int, m: nat, d: int)
    requires m > 0 && 0 <= i % m + d < m
    ensures (i + d) / m == i / m && (i + d) % m == i % m + d
  {
    QuotientUnique(i + d, m, i / m, i % m + d);
  }

  lemma AddMultiple(i: int, m: nat, k: int)
    requires m > 0
    ensures (k * m + i) / m == k + i / m && (k * m + i) % m == i % m
  {
    assert (k + i / m) * m == k * m + i / m * m;
    QuotientUnique(k * m + i, m, k + i / m, i % m);
  }

  lemma RemainderAtMost(k: nat, n: nat)
    requires n > 0
    ensures k % n <= k
  {
    assert k == k / n * n + k % n;
  }

  lemma SameRemainder(i: nat, k: nat, n: nat)
    requires n > 0 && i <= k < i + n && k % n == i % n
    ensures k == i
  {
    var q, p := i / n, k / n;
    assert k - i == (p - q) * n;
    if p > q {
      TimesAtLeast(p - q, n);
    } else if p < q {
      TimesAtLeast(q - p, n);
    }
  }

  /** A number below `m * n` has a quotient below `m`. */
  lemma QuotientBelow(k: int, n: nat, m: int)
    requires n > 0 && 0 <= k < m * n
    ensures 0 <= k / n < m
  {
    if k / n >= m {
      TimesMonotone(m, k / n, n);
    }
  }

  lemma SamePartsSame(k: nat, k': nat, n: nat)
    requires n > 0
    ensures k / n == k' / n && k % n == k' % n ==> k == k'
  {
    assert k == k / n * n + k % n && k' == k' / n * n + k' % n;
  }
}
