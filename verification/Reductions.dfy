/**
 The parallel reductions of kernels/attention_kernel.cu: the XOR butterfly inside a warp, the two-level block reduction,
 and the halving loop across warps. They are used with addition and with the maximum, so the operator is any
 associative and commutative one.
 */
module Reductions {
  import opened Arithmetic

  type Op = (real, real) -> real

  ghost predicate Laws(op: Op) {
    && (forall a, b :: op(a, b) == op(b, a))
    && (forall a, b, c :: op(op(a, b), c) == op(a, op(b, c)))
  }

  predicate IsPowerOfTwo(n: nat) {
    n == 1 || (n > 1 && n % 2 == 0 && IsPowerOfTwo(n / 2))
  }

  /** `op` over the elements at `r`, `r + m`, `r + 2m`, and so on. */
  function Strided(op: Op, v: seq<real>, r: nat, m: nat): real
    requires r < |v| && m > 0
    decreases |v| - r
  {
    if r + m >= |v| then v[r] else op(v[r], Strided(op, v, r + m, m))
  }

  /** `op` over all elements: what a sequential loop computes. */
  function Total(op: Op, v: seq<real>): real
    requires v != []
  {
    Strided(op, v, 0, 1)
  }

  // ----- One thread's view

  /** `lane ^ mask` for a power of two: the lane with that bit flipped. */
  function Partner(lane: nat, mask: nat): int
    requires mask > 0
  {
    if lane / mask % 2 == 0 then lane + mask else lane - mask
  }

  /** Bitwise exclusive or. */
  function Xor(a: nat, b: nat): nat
    decreases a + b
  {
    if a == 0 && b == 0 then 0 else (if a % 2 == b % 2 then 0 else 1) + 2 * Xor(a / 2, b / 2)
  }

  lemma {:induction false} XorZero(a: nat)
    ensures Xor(a, 0) == a
  {
    if a > 0 {
      XorZero(a / 2);
    }
  }

  /** The partner is the lane that the XOR shuffle names. */
  lemma {:induction false} PartnerIsXor(lane: nat, mask: nat)
    requires IsPowerOfTwo(mask)
    ensures Partner(lane, mask) == Xor(lane, mask)
    decreases mask
  {
    if mask == 1 {
      XorZero(lane / 2);
      assert lane / 1 == lane;
    } else {
      PartnerIsXor(lane / 2, mask / 2);
      HalfQuotient(lane, mask / 2);
    }
  }

  lemma HalfQuotient(lane: nat, h: nat)
    requires h > 0
    ensures lane / 2 / h == lane / (2 * h)
  {
    var q, r := lane / 2 / h, lane / 2 % h;
    assert lane / 2 == q * h + r;
    DoubleProduct(q, h);
    assert lane == q * (2 * h) + (2 * r + lane % 2);
    QuotientUnique(lane, 2 * h, q, 2 * r + lane % 2);
  }

  /** Every lane combines its value with its partner's, all at once. */
  function Exchange(op: Op, v: seq<real>, mask: nat): seq<real>
    requires mask > 0 && |v| % (2 * mask) == 0
  {
    seq(|v|, i requires 0 <= i < |v| => PartnerInRange(i, mask, |v|); op(v[i], v[Partner(i, mask)]))
  }

  lemma PartnerInRange(i: nat, mask: nat, n: nat)
    requires mask > 0 && i < n && n % (2 * mask) == 0
    ensures 0 <= Partner(i, mask) < n
  {
    var low, place := i / mask % 2 == 0, i % mask;
    var w := 2 * mask;
    var rest := i % w;
    assert rest == if low then place else place + mask by { HalfOf(i, mask); }
    assert i - rest + w <= n by { MultipleAbove(i, w, n); }
    assert rest <= i by { RemainderAtMost(i, w); }
    PartnerBetween(i, mask, n, low, place, rest);
  }

  lemma PartnerBetween(i: nat, mask: nat, n: nat, low: bool, place: int, rest: int)
    requires 0 <= place < mask && rest == (if low then place else place + mask)
    requires rest <= i && i - rest + 2 * mask <= n
    ensures 0 <= (if low then i + mask else i - mask) < n
  {
  }

  /** A lane and its partner lie in the two halves of one block of `2 * mask` lanes, at the same place. */
  lemma PartnerRemainder(i: nat, mask: nat)
    requires mask > 0
    ensures i % (2 * mask) == if i / mask % 2 == 0 then i % mask else i % mask + mask
    ensures Partner(i, mask) % (2 * mask) == if i / mask % 2 == 0 then i % mask + mask else i % mask
  {
    HalfOf(i, mask);
    RemainderShift(i, 2 * mask, Partner(i, mask) - i);
  }

  /** The parity of `i / mask` says in which half of its block of `2 * mask` lanes lane `i` lies. */
  lemma HalfOf(i: nat, mask: nat)
    requires mask > 0
    ensures i % (2 * mask) == if i / mask % 2 == 0 then i % mask else i % mask + mask
  {
    var q, r := i / mask, i % mask;
    var k := q / 2;
    DoubleProduct(k, mask);
    if q % 2 == 0 {
      QuotientUnique(i, 2 * mask, k, r);
    } else {
      QuotientUnique(i, 2 * mask, k, r + mask);
    }
  }

  lemma DoubleProduct(k: nat, mask: nat)
    ensures k * (2 * mask) == (2 * k) * mask
    ensures (2 * k + 1) * mask == (2 * k) * mask + mask
  {
  }

  /** The butterfly from `mask` down to `low`. */
  function Butterfly(op: Op, v: seq<real>, mask: nat, low: nat): seq<real>
    requires low > 0 && (mask < low || (IsPowerOfTwo(mask) && |v| % (2 * mask) == 0))
    decreases mask
  {
    if mask < low then v
    else
      HalfDivides(|v|, mask);
      Butterfly(op, Exchange(op, v, mask), mask / 2, low)
  }

  lemma HalfDivides(n: nat, mask: nat)
    requires IsPowerOfTwo(mask) && n % (2 * mask) == 0
    ensures mask == 1 ==> mask / 2 == 0
    ensures mask > 1 ==> IsPowerOfTwo(mask / 2) && 2 * (mask / 2) == mask && n % mask == 0
  {
    if mask > 1 {
      var k := n / (2 * mask);
      assert n == k * (2 * mask) == (2 * k) * mask;
      QuotientUnique(n, mask, 2 * k, 0);
    }
  }

  // ----- The reduction law

  lemma Rearranged(op: Op, x: real, a: real, b: real)
    requires Laws(op)
    ensures op(x, op(a, b)) == op(op(x, b), a)
  {
    assert op(a, b) == op(b, a);
    assert op(op(x, b), a) == op(x, op(b, a));
  }

  /** Two interleaved strides of `2h` make one stride of `h`. */
  lemma {:induction false} StridesMerge(op: Op, v: seq<real>, r: nat, h: nat)
    requires Laws(op) && h > 0 && r + h < |v|
    ensures Strided(op, v, r, h) == op(Strided(op, v, r, 2 * h), Strided(op, v, r + h, 2 * h))
    decreases |v| - r
  {
    hide Laws;
    if r + 2 * h < |v| {
      StridesMerge(op, v, r + h, h);
      Rearranged(op, v[r], Strided(op, v, r + h, 2 * h), Strided(op, v, r + 2 * h, 2 * h));
    }
  }

  lemma Symmetric(op: Op, a: real, b: real)
    requires Laws(op)
    ensures op(a, b) == op(b, a)
  {
  }

  /** Lane `i` holds the result over all lanes congruent to it modulo `m`. */
  ghost predicate HoldsStride(op: Op, v0: seq<real>, v: seq<real>, m: nat) {
    && m > 0 && |v| == |v0| && m <= |v0|
    && (forall i :: 0 <= i < |v| ==> v[i] == Strided(op, v0, i % m, m))
  }

  lemma ExchangeHoldsStride(op: Op, v0: seq<real>, v: seq<real>, mask: nat)
    requires Laws(op) && mask > 0 && |v| % (2 * mask) == 0 && HoldsStride(op, v0, v, 2 * mask)
    ensures HoldsStride(op, v0, Exchange(op, v, mask), mask)
  {
    hide Laws;
    var w := Exchange(op, v, mask);
    forall i | 0 <= i < |w| ensures w[i] == Strided(op, v0, i % mask, mask) {
      PartnerInRange(i, mask, |v|);
      PartnerRemainder(i, mask);
      var r := i % mask;
      var p := Partner(i, mask);
      assert v[i] == Strided(op, v0, i % (2 * mask), 2 * mask);
      assert v[p] == Strided(op, v0, p % (2 * mask), 2 * mask);
      StridesMerge(op, v0, r, mask);
      Symmetric(op, Strided(op, v0, r, 2 * mask), Strided(op, v0, r + mask, 2 * mask));
    }
  }

  lemma {:induction false} ButterflyHolds(op: Op, v0: seq<real>, v: seq<real>, mask: nat, low: nat)
    requires Laws(op) && IsPowerOfTwo(mask) && IsPowerOfTwo(low) && low <= 2 * mask
    requires |v| % (2 * mask) == 0 && HoldsStride(op, v0, v, 2 * mask)
    ensures HoldsStride(op, v0, Butterfly(op, v, mask, low), low)
    decreases mask
  {
    hide Laws, HoldsStride, Exchange;
    BetweenPowers(mask, low);
    if low <= mask {
      ExchangeHoldsStride(op, v0, v, mask);
      HalfDivides(|v|, mask);
      if mask > 1 {
        SameLength(op, v, mask);
        ButterflyHolds(op, v0, Exchange(op, v, mask), mask / 2, low);
      }
    }
  }

  lemma SameLength(op: Op, v: seq<real>, mask: nat)
    requires mask > 0 && |v| % (2 * mask) == 0
    ensures |Exchange(op, v, mask)| == |v|
  {
  }

  /** A butterfly down to `low` gives every lane the result over the lanes congruent to it modulo `low`. */
  lemma ButterflyStride(op: Op, v: seq<real>, mask: nat, low: nat)
    requires Laws(op) && |v| == 2 * mask && IsPowerOfTwo(mask) && IsPowerOfTwo(low) && low <= 2 * mask
    ensures |v| % (2 * mask) == 0 && HoldsStride(op, v, Butterfly(op, v, mask, low), low)
  {
    hide Laws;
    forall i | 0 <= i < |v| ensures i % |v| == i && v[i] == Strided(op, v, i, |v|) {
      QuotientUnique(i, |v|, 0, i);
    }
    QuotientUnique(|v|, |v|, 1, 0);
    ButterflyHolds(op, v, v, mask, low);
  }

  /** The whole butterfly over a power-of-two number of lanes gives every lane the result over all of them. */
  lemma ButterflyTotal(op: Op, v: seq<real>, mask: nat)
    requires Laws(op) && |v| == 2 * mask && IsPowerOfTwo(mask)
    ensures |v| % (2 * mask) == 0 && |Butterfly(op, v, mask, 1)| == |v|
    ensures forall i :: 0 <= i < |v| ==> Butterfly(op, v, mask, 1)[i] == Total(op, v)
  {
    hide Laws;
    ButterflyStride(op, v, mask, 1);
    assert forall i :: i % 1 == 0;
  }

  // ----- Two levels

  /** Lanes of an aligned group have their partners in the group. */
  lemma PartnerInGroup(lo: nat, i: nat, mask: nat)
    requires mask > 0 && lo % (2 * mask) == 0
    ensures Partner(lo + i, mask) == lo + Partner(i, mask)
  {
    var k := lo / (2 * mask);
    DoubleProduct(k, mask);
    assert lo == (2 * k) * mask;
    AddMultiple(i, mask, 2 * k);
  }

  /** A butterfly works on every aligned group of lanes by itself. */
  lemma {:induction false} ButterflyGroup(op: Op, v: seq<real>, lo: nat, w: nat, mask: nat)
    requires IsPowerOfTwo(mask) && lo + w <= |v|
    requires lo % (2 * mask) == 0 && w % (2 * mask) == 0 && |v| % (2 * mask) == 0
    ensures |Butterfly(op, v, mask, 1)| == |v|
    ensures Butterfly(op, v, mask, 1)[lo..lo + w] == Butterfly(op, v[lo..lo + w], mask, 1)
    decreases mask
  {
    var a, b := Exchange(op, v, mask), Exchange(op, v[lo..lo + w], mask);
    forall i | 0 <= i < w ensures a[lo + i] == b[i] {
      PartnerInRange(i, mask, w);
      PartnerInRange(lo + i, mask, |v|);
      PartnerInGroup(lo, i, mask);
    }
    assert a[lo..lo + w] == b;
    HalfDivides(|v|, mask);
    HalfDivides(w, mask);
    HalfDivides(lo, mask);
    if mask > 1 {
      ButterflyGroup(op, a, lo, w, mask / 2);
    }
  }

  /** Totals of the warps, one after the other. */
  function WarpTotals(op: Op, warps: seq<seq<real>>): seq<real>
    requires forall k :: 0 <= k < |warps| ==> warps[k] != []
  {
    seq(|warps|, k requires 0 <= k < |warps| => Total(op, warps[k]))
  }

  function Flat(warps: seq<seq<real>>): seq<real> {
    if warps == [] then [] else warps[0] + Flat(warps[1..])
  }

  lemma {:induction false} TotalAppend(op: Op, a: seq<real>, b: seq<real>)
    requires Laws(op) && a != [] && b != []
    ensures Total(op, a + b) == op(Total(op, a), Total(op, b))
    decreases |a|
  {
    hide Laws;
    if |a| == 1 {
      ShiftStrided(op, a + b, 1, b);
    } else {
      assert (a + b)[0] == a[0];
      assert a + b == [a[0]] + (a[1..] + b);
      ShiftStrided(op, a + b, 1, a[1..] + b);
      ShiftStrided(op, a, 1, a[1..]);
      TotalAppend(op, a[1..], b);
      Assoc(op, a[0], Total(op, a[1..]), Total(op, b));
    }
  }

  lemma Assoc(op: Op, a: real, b: real, c: real)
    requires Laws(op)
    ensures op(op(a, b), c) == op(a, op(b, c))
  {
  }

  lemma ShiftStrided(op: Op, v: seq<real>, k: nat, rest: seq<real>)
    requires k < |v| && rest == v[k..]
    ensures Strided(op, v, k, 1) == Total(op, rest)
  {
    ShiftAt(op, v, k, rest, 0);
  }

  lemma {:induction false} ShiftAt(op: Op, v: seq<real>, k: nat, rest: seq<real>, i: nat)
    requires k < |v| && rest == v[k..] && i < |rest|
    ensures Strided(op, v, k + i, 1) == Strided(op, rest, i, 1)
    decreases |rest| - i
  {
    if i + 1 < |rest| {
      ShiftAt(op, v, k, rest, i + 1);
    }
  }

  lemma {:induction false} TotalOfTotals(op: Op, warps: seq<seq<real>>)
    requires Laws(op) && warps != [] && (forall k :: 0 <= k < |warps| ==> warps[k] != [])
    ensures Flat(warps) != [] && Total(op, WarpTotals(op, warps)) == Total(op, Flat(warps))
    decreases |warps|
  {
    hide Laws;
    var ts := WarpTotals(op, warps);
    if |warps| == 1 {
      assert Flat(warps[1..]) == [];
      assert Flat(warps) == warps[0];
    } else {
      var rest := warps[1..];
      TotalOfTotals(op, rest);
      TotalAppend(op, warps[0], Flat(rest));
      assert ts == [ts[0]] + WarpTotals(op, rest);
      ShiftStrided(op, ts, 1, WarpTotals(op, rest));
    }
  }

  /**
   `block_sum` for `numWarps` warps of `2 * half` lanes: a butterfly in every warp, the leaders' values in shared
   memory, a second butterfly over the first `numWarps` lanes of every warp, and a broadcast of lane 0. Lanes beyond
   `numWarps` keep what they held. Every thread of every warp gets the result over all threads.
   */
  method BlockReduce(op: Op, warps: seq<seq<real>>, half: nat) returns (results: seq<real>)
    requires Laws(op) && IsPowerOfTwo(half) && IsPowerOfTwo(|warps|) && |warps| <= 2 * half
    requires forall k :: 0 <= k < |warps| ==> |warps[k]| == 2 * half
    ensures |results| == |warps| && Flat(warps) != []
    ensures forall k :: 0 <= k < |warps| ==> results[k] == Total(op, Flat(warps))
  {
    hide Laws;
    var numWarps := |warps|;
    var shared, lanes := [], [];
    while |shared| < numWarps
      invariant |shared| == |lanes| <= numWarps
      invariant forall i :: 0 <= i < |shared| ==> shared[i] == Total(op, warps[i]) && |lanes[i]| == 2 * half
    {
      var k := |shared|;
      QuotientUnique(2 * half, 2 * half, 1, 0);
      ButterflyTotal(op, warps[k], half);
      var warp := Butterfly(op, warps[k], half, 1);
      shared := shared + [warp[0]];
      lanes := lanes + [warp];
    }
    assert shared == WarpTotals(op, warps);
    TotalOfTotals(op, warps);
    results := [];
    while |results| < numWarps
      invariant |results| <= numWarps
      invariant forall i :: 0 <= i < |results| ==> results[i] == Total(op, shared)
    {
      var result := WarpResult(op, shared, lanes[|results|]);
      results := results + [result];
    }
  }

  /** The second half of `block_sum` in one warp. */
  method WarpResult(op: Op, shared: seq<real>, sums: seq<real>) returns (r: real)
    requires Laws(op) && IsPowerOfTwo(|shared|) && |shared| <= |sums|
    requires |sums| % 2 == 0 && IsPowerOfTwo(|sums| / 2)
    ensures r == Total(op, shared)
  {
    hide Laws;
    var n := |shared|;
    var lanes := shared + sums[n..];
    assert lanes[0..0 + n] == shared;
    if n > 1 {
      var mask := n / 2;
      PowersDivide(|sums|, n);
      QuotientUnique(n, 2 * mask, 1, 0);
      ButterflyGroup(op, lanes, 0, n, mask);
      ButterflyTotal(op, shared, mask);
      lanes := Butterfly(op, lanes, mask, 1);
      assert lanes[0] == lanes[0..0 + n][0];
    }
    r := lanes[0];
  }

  /** A power of two divides every larger one. */
  lemma {:induction false} PowersDivide(a: nat, b: nat)
    requires IsPowerOfTwo(b) && b <= a && a % 2 == 0 && IsPowerOfTwo(a / 2)
    ensures a % b == 0
    decreases a
  {
    if a == b {
      QuotientUnique(a, b, 1, 0);
    } else if b == 1 {
    } else if b <= a / 2 {
      if a / 2 == 1 {
        QuotientUnique(a, b, 2, 0);
      } else {
        PowersDivide(a / 2, b);
        var k := a / 2 / b;
        assert a / 2 == k * b;
        QuotientUnique(a, b, 2 * k, 0);
      }
    } else {
      BetweenPowers(a / 2, b);
    }
  }

  /** There is no power of two strictly between a power of two and its double. */
  lemma {:induction false} BetweenPowers(h: nat, b: nat)
    requires IsPowerOfTwo(h) && IsPowerOfTwo(b)
    ensures !(h < b < 2 * h)
    decreases h
  {
    if h > 1 && b > 1 {
      BetweenPowers(h / 2, b / 2);
    }
  }

  // ----- Across warps

  /** The first `m` cells hold the result over the strides of `m`; the others are no longer read. */
  ghost predicate HoldsPrefix(op: Op, v0: seq<real>, v: seq<real>, m: nat) {
    && 0 < m <= |v0| == |v|
    && (forall i :: 0 <= i < m ==> v[i] == Strided(op, v0, i, m))
  }

  /**
   The cross-warp loop, in place: in each round the upper half of the warps still active hands its accumulators to the
   lower half. Warp 0 ends with the result over all warps.
   */
  method CrossWarpReduce(op: Op, accs: array<real>)
    requires Laws(op) && IsPowerOfTwo(accs.Length)
    modifies accs
    ensures accs[0] == Total(op, old(accs[..]))
  {
    hide Laws;
    ghost var v0 := accs[..];
    var i := accs.Length;
    assert HoldsPrefix(op, v0, accs[..], i);
    while i > 1
      invariant 1 <= i <= accs.Length && IsPowerOfTwo(i) && HoldsPrefix(op, v0, accs[..], i)
    {
      var mid, w := i / 2, 0;
      ghost var before := accs[..];
      while w < mid
        invariant w <= mid
        invariant forall k :: 0 <= k < w ==> accs[k] == op(before[k], before[k + mid])
        invariant forall k :: w <= k < accs.Length ==> accs[k] == before[k]
      {
        accs[w] := op(accs[w], accs[w + mid]);
        w := w + 1;
      }
      forall k | 0 <= k < mid ensures accs[k] == Strided(op, v0, k, mid) {
        StridesMerge(op, v0, k, mid);
      }
      i := mid;
    }
  }
}
