/**
 The flattened cache addresses of kernels/reshape_and_cache_kernel.cu, which writes, and
 kernels/attention_kernel.cu, which reads.
 */
module Addressing {
  import opened Arithmetic

  /** Cache layout: heads per block, head size, block size, and the width of a 16-byte group of key elements. */
  datatype Layout = Layout(heads: nat, headSize: nat, blockSize: nat, x: nat) {
    predicate Valid() {
      heads > 0 && headSize > 0 && blockSize > 0 && x > 0
    }
  }

  // ----- Where the write kernel puts element `i` of a token

  function KeyWriteIndex(l: Layout, slot: nat, i: nat): int
    requires l.Valid()
  {
    var blockIdx, blockOffset := slot / l.blockSize, slot % l.blockSize;
    var headIdx, headOffset := i / l.headSize, i % l.headSize;
    var xIdx, xOffset := headOffset / l.x, headOffset % l.x;
    blockIdx * l.heads * (l.headSize / l.x) * l.blockSize * l.x
    + headIdx * (l.headSize / l.x) * l.blockSize * l.x
    + xIdx * l.blockSize * l.x
    + blockOffset * l.x
    + xOffset
  }

  function ValueWriteIndex(l: Layout, slot: nat, i: nat): int
    requires l.Valid()
  {
    var blockIdx, blockOffset := slot / l.blockSize, slot % l.blockSize;
    var headIdx, headOffset := i / l.headSize, i % l.headSize;
    blockIdx * l.heads * l.headSize * l.blockSize
    + headIdx * l.headSize * l.blockSize
    + headOffset * l.blockSize
    + blockOffset
  }

  // ----- Where the attention kernel reads

  /** `kv_block_stride` and `kv_head_stride` are strides of the key cache; the kernel uses them for both caches. */
  function BlockStride(l: Layout): int
    requires l.Valid()
  {
    l.heads * (l.headSize / l.x) * l.blockSize * l.x
  }

  function HeadStride(l: Layout): int
    requires l.Valid()
  {
    (l.headSize / l.x) * l.blockSize * l.x
  }

  /** Element `e` of key vector `vec` (of `v` elements) of a head, for the token at `offset` of `block`. */
  function KeyReadIndex(l: Layout, v: nat, block: nat, head: nat, offset: nat, vec: nat, e: nat): int
    requires l.Valid()
  {
    var offset1, offset2 := vec * v / l.x, vec * v % l.x;
    block * BlockStride(l) + head * HeadStride(l) + offset * l.x + offset1 * l.blockSize * l.x + offset2 + e
  }

  function ValueReadIndex(l: Layout, block: nat, head: nat, row: nat, offset: nat): int
    requires l.Valid()
  {
    block * BlockStride(l) + head * HeadStride(l) + row * l.blockSize + offset
  }

  // ----- Nested form

  function Nest(q: int, n: int, r: int): int {
    q * n + r
  }

  /** The key address as nested quotients: block, head, group of `x`, token offset, element of the group. */
  function KeyNested(l: Layout, block: int, head: int, d: int, offset: int): int
    requires l.Valid()
  {
    Nest(Nest(Nest(Nest(block, l.heads, head), l.headSize / l.x, d / l.x), l.blockSize, offset), l.x, d % l.x)
  }

  function ValueNested(l: Layout, block: int, head: int, d: int, offset: int): int
    requires l.Valid()
  {
    Nest(Nest(Nest(block, l.heads, head), l.headSize, d), l.blockSize, offset)
  }

  lemma Horner5(b: int, h: int, q: int, o: int, r: int, H: int, G: int, B: int, X: int)
    ensures b * H * G * B * X + h * G * B * X + q * B * X + o * X + r ==
            Nest(Nest(Nest(Nest(b, H, h), G, q), B, o), X, r)
  {
    var s := b * H + h;
    assert s * G == b * H * G + h * G;
    var t := s * G + q;
    assert t * B == b * H * G * B + h * G * B + q * B;
    var u := t * B + o;
    assert u * X == b * H * G * B * X + h * G * B * X + q * B * X + o * X;
  }

  lemma Horner4(b: int, h: int, d: int, o: int, H: int, D: int, B: int)
    ensures b * H * D * B + h * D * B + d * B + o == Nest(Nest(Nest(b, H, h), D, d), B, o)
  {
    var s := b * H + h;
    assert s * D == b * H * D + h * D;
    assert (s * D + d) * B == b * H * D * B + h * D * B + d * B;
  }

  lemma WriteIsNested(l: Layout, slot: nat, i: nat)
    requires l.Valid()
    ensures KeyWriteIndex(l, slot, i) ==
            KeyNested(l, slot / l.blockSize, i / l.headSize, i % l.headSize, slot % l.blockSize)
    ensures ValueWriteIndex(l, slot, i) ==
            ValueNested(l, slot / l.blockSize, i / l.headSize, i % l.headSize, slot % l.blockSize)
  {
    hide Nest;
    var b, o, h, d := slot / l.blockSize, slot % l.blockSize, i / l.headSize, i % l.headSize;
    Horner5(b, h, d / l.x, o, d % l.x, l.heads, l.headSize / l.x, l.blockSize, l.x);
    Horner4(b, h, d, o, l.heads, l.headSize, l.blockSize);
  }

  // ----- Injectivity

  /** Two nested positions are equal only if quotients and remainders are. */
  lemma Unnest(q: int, r: int, q': int, r': int, n: nat)
    requires 0 <= r < n && 0 <= r' < n && Nest(q, n, r) == Nest(q', n, r')
    ensures q == q' && r == r'
  {
    QuotientUnique(q * n + r, n, q, r);
    QuotientUnique(q' * n + r', n, q', r');
  }

  ghost predicate InHead(l: Layout, head: int, d: int, offset: int) {
    0 <= head < l.heads && 0 <= d < l.headSize && 0 <= offset < l.blockSize
  }

  lemma KeyNestedInjective(l: Layout, block: int, head: int, d: int, offset: int, block': int, head': int, d': int,
                           offset': int)
    requires l.Valid() && l.headSize % l.x == 0 && InHead(l, head, d, offset) && InHead(l, head', d', offset')
    requires KeyNested(l, block, head, d, offset) == KeyNested(l, block', head', d', offset')
    ensures block == block' && head == head' && d == d' && offset == offset'
  {
    hide Nest;
    GroupBelow(l, d);
    GroupBelow(l, d');
    var G := l.headSize / l.x;
    var a, a' := Nest(block, l.heads, head), Nest(block', l.heads, head');
    var t, t' := Nest(a, G, d / l.x), Nest(a', G, d' / l.x);
    Unnest(Nest(t, l.blockSize, offset), d % l.x, Nest(t', l.blockSize, offset'), d' % l.x, l.x);
    Unnest(t, offset, t', offset', l.blockSize);
    Unnest(a, d / l.x, a', d' / l.x, G);
    Unnest(block, head, block', head', l.heads);
  }

  lemma GroupBelow(l: Layout, d: int)
    requires l.Valid() && l.headSize % l.x == 0 && 0 <= d < l.headSize
    ensures 0 <= d / l.x < l.headSize / l.x
    ensures d == d / l.x * l.x + d % l.x
  {
    QuotientBelow(d, l.x, l.headSize / l.x);
  }

  lemma PositiveFactor(a: int, n: nat)
    requires a * n > 0
    ensures a > 0
  {
  }

  lemma ValueNestedInjective(l: Layout, block: int, head: int, d: int, offset: int, block': int, head': int, d': int,
                             offset': int)
    requires l.Valid() && InHead(l, head, d, offset) && InHead(l, head', d', offset')
    requires ValueNested(l, block, head, d, offset) == ValueNested(l, block', head', d', offset')
    ensures block == block' && head == head' && d == d' && offset == offset'
  {
    hide Nest;
    var a, a' := Nest(block, l.heads, head), Nest(block', l.heads, head');
    Unnest(Nest(a, l.headSize, d), offset, Nest(a', l.headSize, d'), offset', l.blockSize);
    Unnest(a, d, a', d', l.headSize);
    Unnest(block, head, block', head', l.heads);
  }

  /** Distinct (slot, element) pairs are written to distinct cells of both caches. */
  lemma WritesDistinct(l: Layout, slot: nat, i: nat, slot': nat, i': nat)
    requires l.Valid() && l.headSize % l.x == 0
    requires i < l.heads * l.headSize && i' < l.heads * l.headSize
    requires slot != slot' || i != i'
    ensures KeyWriteIndex(l, slot, i) != KeyWriteIndex(l, slot', i')
    ensures ValueWriteIndex(l, slot, i) != ValueWriteIndex(l, slot', i')
  {
    hide KeyNested, ValueNested, KeyWriteIndex, ValueWriteIndex;
    WriteIsNested(l, slot, i);
    WriteIsNested(l, slot', i');
    QuotientBelow(i, l.headSize, l.heads);
    QuotientBelow(i', l.headSize, l.heads);
    var b, o, h, d := slot / l.blockSize, slot % l.blockSize, i / l.headSize, i % l.headSize;
    var b', o', h', d' := slot' / l.blockSize, slot' % l.blockSize, i' / l.headSize, i' % l.headSize;
    SamePartsSame(slot, slot', l.blockSize);
    SamePartsSame(i, i', l.headSize);
    if KeyNested(l, b, h, d, o) == KeyNested(l, b', h', d', o') {
      KeyNestedInjective(l, b, h, d, o, b', h', d', o');
    }
    if ValueNested(l, b, h, d, o) == ValueNested(l, b', h', d', o') {
      ValueNestedInjective(l, b, h, d, o, b', h', d', o');
    }
  }

  // ----- In range

  lemma NestBelow(q: int, r: int, n: int, m: int)
    requires 0 <= q < m && 0 <= r < n
    ensures 0 <= Nest(q, n, r) < m * n
  {
    assert m * n == q * n + (m - q) * n;
    TimesAtLeast(m - q, n);
    assert q * n >= 0;
  }

  /** Every write of a slot of one of `blocks` blocks stays inside the caches. */
  lemma WritesInRange(l: Layout, blocks: nat, slot: nat, i: nat)
    requires l.Valid() && l.headSize % l.x == 0
    requires slot < blocks * l.blockSize && i < l.heads * l.headSize
    ensures 0 <= KeyWriteIndex(l, slot, i) < blocks * l.heads * (l.headSize / l.x) * l.blockSize * l.x
    ensures 0 <= ValueWriteIndex(l, slot, i) < blocks * l.heads * l.headSize * l.blockSize
  {
    hide KeyWriteIndex, ValueWriteIndex, Nest;
    WriteIsNested(l, slot, i);
    QuotientBelow(i, l.headSize, l.heads);
    QuotientBelow(slot, l.blockSize, blocks);
    var b, o, h, d := slot / l.blockSize, slot % l.blockSize, i / l.headSize, i % l.headSize;
    var G := l.headSize / l.x;
    GroupBelow(l, d);
    var a := Nest(b, l.heads, h);
    NestBelow(b, h, l.heads, blocks);
    NestBelow(a, d / l.x, G, blocks * l.heads);
    NestBelow(Nest(a, G, d / l.x), o, l.blockSize, blocks * l.heads * G);
    NestBelow(Nest(Nest(a, G, d / l.x), l.blockSize, o), d % l.x, l.x, blocks * l.heads * G * l.blockSize);
    NestBelow(a, d, l.headSize, blocks * l.heads);
    NestBelow(Nest(a, l.headSize, d), o, l.blockSize, blocks * l.heads * l.headSize);
  }

  // ----- Reads meet writes

  /** The attention kernel finds element `vec * v + e` of a key exactly where the write kernel put it. */
  lemma KeyReadMeetsWrite(l: Layout, v: nat, block: nat, head: nat, offset: nat, vec: nat, e: nat, slot: nat, i: nat)
    requires l.Valid() && v > 0 && l.x % v == 0 && e < v && offset < l.blockSize
    requires 0 <= Nest(vec, v, e) < l.headSize && slot == Nest(block, l.blockSize, offset)
    requires i == Nest(head, l.headSize, Nest(vec, v, e))
    ensures KeyReadIndex(l, v, block, head, offset, vec, e) == KeyWriteIndex(l, slot, i)
  {
    hide KeyWriteIndex, Nest;
    var d := Nest(vec, v, e);
    WriteIsNested(l, slot, i);
    NestParts(block, l.blockSize, offset);
    NestParts(head, l.headSize, d);
    VectorInGroup(l.x, v, vec, e);
    Horner5(block, head, vec * v / l.x, offset, d % l.x, l.heads, l.headSize / l.x, l.blockSize, l.x);
    ReadForm(l, block, head);
  }

  lemma NestParts(q: int, n: nat, r: int)
    requires 0 <= r < n
    ensures Nest(q, n, r) / n == q && Nest(q, n, r) % n == r
  {
    QuotientUnique(q * n + r, n, q, r);
  }

  lemma ReadForm(l: Layout, block: nat, head: nat)
    requires l.Valid()
    ensures block * BlockStride(l) == block * l.heads * (l.headSize / l.x) * l.blockSize * l.x
    ensures head * HeadStride(l) == head * (l.headSize / l.x) * l.blockSize * l.x
  {
    MulAssoc4(block, l.heads, l.headSize / l.x, l.blockSize, l.x);
    MulAssoc3(head, l.headSize / l.x, l.blockSize, l.x);
  }

  lemma MulAssoc3(a: int, b: int, c: int, d: int)
    ensures a * (b * c * d) == a * b * c * d
  {
    assert a * (b * c * d) == a * (b * c) * d;
    assert a * (b * c) == a * b * c;
  }

  lemma MulAssoc4(a: int, b: int, c: int, d: int, e: int)
    ensures a * (b * c * d * e) == a * b * c * d * e
  {
    assert a * (b * c * d * e) == a * (b * c * d) * e;
    MulAssoc3(a, b, c, d);
  }

  /** A vector whose size divides `x` does not cross a group of `x`. */
  lemma VectorInGroup(x: nat, v: nat, vec: nat, e: nat)
    requires x > 0 && v > 0 && x % v == 0 && e < v
    ensures Nest(vec, v, e) / x == vec * v / x && Nest(vec, v, e) % x == vec * v % x + e
  {
    var q, r, k := vec * v / x, vec * v % x, x / v;
    assert vec * v == q * x + r;
    assert x == k * v;
    var m := vec - q * k;
    assert m * v == r by {
      MulAssocSub(vec, q, k, v);
    }
    assert (k - m) * v > 0 by {
      assert (k - m) * v == x - r;
    }
    PositiveFactor(k - m, v);
    TimesAtLeast(k - m, v);
    assert r + v <= x by {
      assert (k - m) * v == x - r;
    }
    QuotientUnique(vec * v + e, x, q, r + e);
  }

  lemma MulAssocSub(vec: int, q: int, k: int, v: int)
    ensures (vec - q * k) * v == vec * v - q * (k * v)
  {
    assert q * (k * v) == q * k * v;
  }

  /**
   The value address as read uses the strides of the key cache. Beyond the first block and head it is the address
   written exactly when `x` divides the head size.
   */
  lemma ValueReadMeetsWriteIff(l: Layout, block: nat, head: nat, row: nat, offset: nat, slot: nat, i: nat)
    requires l.Valid() && row < l.headSize && offset < l.blockSize
    requires slot == Nest(block, l.blockSize, offset) && i == Nest(head, l.headSize, row)
    ensures ValueReadIndex(l, block, head, row, offset) == ValueWriteIndex(l, slot, i) <==>
            l.headSize % l.x == 0 || (block == 0 && head == 0)
  {
    NestParts(block, l.blockSize, offset);
    NestParts(head, l.headSize, row);
    hide Nest;
    ReadForm(l, block, head);
    StrideGap(l, block, head);
  }

  lemma StrideGap(l: Layout, block: nat, head: nat)
    requires l.Valid()
    ensures block * l.heads * l.headSize * l.blockSize + head * l.headSize * l.blockSize
            == block * l.heads * (l.headSize / l.x) * l.blockSize * l.x + head * (l.headSize / l.x) * l.blockSize * l.x
               + (block * l.heads + head) * (l.headSize % l.x) * l.blockSize
    ensures (block * l.heads + head) * (l.headSize % l.x) * l.blockSize == 0 <==>
            l.headSize % l.x == 0 || (block == 0 && head == 0)
  {
    var G, lost, B := l.headSize / l.x, l.headSize % l.x, l.blockSize;
    var a := block * l.heads + head;
    assert a * l.headSize == a * (G * l.x) + a * lost;
    assert a * l.headSize * B == a * (G * l.x) * B + a * lost * B;
    assert block * l.heads * l.headSize * B + head * l.headSize * B == a * l.headSize * B by {
      assert a * l.headSize == block * l.heads * l.headSize + head * l.headSize;
    }
    assert a * (G * l.x) * B == a * G * B * l.x by {
      assert a * (G * l.x) == a * G * l.x;
      assert a * G * l.x * B == a * G * B * l.x;
    }
    assert a * G * B * l.x == block * l.heads * G * B * l.x + head * G * B * l.x by {
      assert a * G == block * l.heads * G + head * G;
      assert a * G * B == block * l.heads * G * B + head * G * B;
    }
    ZeroProduct(a, lost, B);
    ZeroSum(block, l.heads, head);
  }

  lemma ZeroProduct(a: nat, b: nat, c: nat)
    requires c > 0
    ensures a * b * c == 0 <==> a == 0 || b == 0
  {
    if a > 0 && b > 0 {
      TimesAtLeast(a, b);
      TimesAtLeast(a * b, c);
    }
  }

  lemma ZeroSum(block: nat, heads: nat, head: nat)
    requires heads > 0
    ensures block * heads + head == 0 <==> block == 0 && head == 0
  {
    if block > 0 {
      TimesAtLeast(block, heads);
    }
  }
}
