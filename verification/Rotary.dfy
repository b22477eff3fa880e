/**
 The rotary embedding of kernels/rotary_embedding_kernel.cu over the reals: the pairs of every head are rotated in
 place, in the interleaved (GPT-J) or the split (GPT-NeoX) layout.
 */
module Rotary {
  import opened Arithmetic
  import opened Sums
  import opened Strides

  datatype Layout = GptJ | NeoX {

    /** The two elements of pair `off` in a head with `e` pairs. */
    function X(e: int, off: int): int {
      if NeoX? then off else 2 * off
    }

    function Y(e: int, off: int): int {
      if NeoX? then e + off else 2 * off + 1
    }

    /** The pair that element `d` belongs to. */
    function Pair(e: int, d: int): int {
      if NeoX? then if d < e then d else d - e else d / 2
    }
  }

  /** Every element below `2 * e` is the first or the second of exactly one pair. */
  lemma PairIff(l: Layout, e: nat, off: nat, d: nat)
    requires off < e
    ensures 0 <= l.X(e, off) < 2 * e && 0 <= l.Y(e, off) < 2 * e && l.X(e, off) != l.Y(e, off)
    ensures d < 2 * e ==> 0 <= l.Pair(e, d) < e
    ensures d < 2 * e ==> (l.Pair(e, d) == off <==> d == l.X(e, off) || d == l.Y(e, off))
  {
  }

  function RotX(x: real, y: real, c: real, s: real): real {
    x * c - y * s
  }

  function RotY(x: real, y: real, c: real, s: real): real {
    y * c + x * s
  }

  /** Element `d` of the rotated head: a coordinate of its pair's rotation, or what it was beyond the rotated part. */
  function RotatedAt(l: Layout, e: nat, cos: Term, sin: Term, v: Term, d: int): real {
    if d < 0 || d >= 2 * e then v(d)
    else
      var off := l.Pair(e, d);
      var x, y := v(l.X(e, off)), v(l.Y(e, off));
      if d == l.X(e, off) then RotX(x, y, cos(off), sin(off)) else RotY(x, y, cos(off), sin(off))
  }

  function Rotated(l: Layout, e: nat, cos: Term, sin: Term, v: Term): Term {
    d => RotatedAt(l, e, cos, sin, v, d)
  }

  // ----- What a rotation is

  /**
   The vector `(x', y')` is `(x, y)` turned by the angle with this cosine and sine: its component along `(x, y)`, its
   component across, in the positive sense, and its length.
   */
  ghost predicate Turns(x: real, y: real, x': real, y': real, c: real, s: real) {
    && x * x' + y * y' == c * (x * x + y * y)
    && x * y' - y * x' == s * (x * x + y * y)
    && x' * x' + y' * y' == (c * c + s * s) * (x * x + y * y)
  }

  /** There is only one such vector. */
  lemma TurnsUnique(x: real, y: real, x': real, y': real, x'': real, y'': real, c: real, s: real)
    requires Turns(x, y, x', y', c, s) && Turns(x, y, x'', y'', c, s)
    ensures x' == x'' && y' == y''
  {
    if x == 0.0 && y == 0.0 {
      var n := x * x + y * y;
      NoLength(x', y', (c * c + s * s) * n);
      NoLength(x'', y'', (c * c + s * s) * n);
    } else {
      var n := SomeLength(x, y);
      var p, q := c * n, s * n;
      FromComponents(x, y, x', y', p, q);
      FromComponents(x, y, x'', y'', p, q);
      assert n * x' == x * p - y * q == n * x'';
      assert n * y' == y * p + x * q == n * y'';
      CancelFactor(n, x', x'');
      CancelFactor(n, y', y'');
    }
  }

  lemma NoLength(x: real, y: real, n: real)
    requires x * x + y * y == n && n == 0.0
    ensures x == 0.0 && y == 0.0
  {
    var a := Squared(x);
    var b := Squared(y);
    assert a + b == 0.0;
  }

  lemma SomeLength(x: real, y: real) returns (n: real)
    requires x != 0.0 || y != 0.0
    ensures n == x * x + y * y && n > 0.0
  {
    var a := Squared(x);
    var b := Squared(y);
    n := a + b;
  }

  lemma Squared(x: real) returns (a: real)
    ensures a == x * x && a >= 0.0 && (x == 0.0 || a > 0.0)
  {
    if x > 0.0 {
      a := ProductPositive(x, x);
    } else if x < 0.0 {
      a := ProductPositive(-x, -x);
    } else {
      a := 0.0;
    }
  }

  lemma ProductPositive(a: real, b: real) returns (p: real)
    requires a > 0.0 && b > 0.0
    ensures p == a * b && p > 0.0
  {
    p := a * b;
  }

  lemma FromComponents(x: real, y: real, x': real, y': real, p: real, q: real)
    requires x * x' + y * y' == p && x * y' - y * x' == q
    ensures (x * x + y * y) * x' == x * p - y * q
    ensures (x * x + y * y) * y' == y * p + x * q
  {
    calc {
      x * p - y * q;
      x * (x * x' + y * y') - y * (x * y' - y * x');
      (x * x + y * y) * x';
    }
    calc {
      y * p + x * q;
      y * (x * x' + y * y') + x * (x * y' - y * x');
      (x * x + y * y) * y';
    }
  }

  lemma CancelFactor(n: real, a: real, b: real)
    requires n > 0.0 && n * a == n * b
    ensures a == b
  {
    assert n * (a - b) == 0.0;
  }

  /** The two formulas of the kernel turn the vector. */
  lemma FormulasTurn(x: real, y: real, c: real, s: real)
    ensures Turns(x, y, RotX(x, y, c, s), RotY(x, y, c, s), c, s)
  {
    Expand(x * c, -(y * s), x * c, -(y * s));
    Expand(y * c, x * s, y * c, x * s);
    Regroup(x, c, x, c);
    Regroup(y, s, y, s);
    Regroup(y, c, y, c);
    Regroup(x, s, x, s);
    Regroup(x, c, y, s);
    Regroup(y, c, x, s);
    Distributed(x * x, c * c, s * s);
    Distributed(y * y, c * c, s * s);
    Distributed(c * c + s * s, x * x, y * y);
  }

  /** Of head `h` all pairs are turned, each by its own angle, and the rest is as it was. */
  ghost predicate HeadTurned(l: Layout, e: nat, cos: Term, sin: Term, before: seq<real>, now: seq<real>, base: nat,
                             size: nat, h: nat) {
    StretchTurned(l, e, cos, sin, before, now, base + h * size, size)
  }

  ghost predicate StretchTurned(l: Layout, e: nat, cos: Term, sin: Term, before: seq<real>, now: seq<real>, start: int,
                                size: nat) {
    && (forall off: nat :: off < e ==> PairTurned(l, e, cos, sin, before, now, start, off))
    && (forall k :: start + 2 * e <= k < start + size ==> 0 <= k < |before| && k < |now| && now[k] == before[k])
  }

  ghost predicate PairTurned(l: Layout, e: nat, cos: Term, sin: Term, before: seq<real>, now: seq<real>, start: int,
                             off: nat) {
    var kx := if l.NeoX? then start + off else start + 2 * off;
    var ky := if l.NeoX? then start + e + off else start + 2 * off + 1;
    && 0 <= kx < |before| && kx < |now| && 0 <= ky < |before| && ky < |now|
    && Turns(before[kx], before[ky], now[kx], now[ky], cos(off), sin(off))
  }

  // ----- The loop

  /** Head `h` of the array, as a function of the element. */
  function Head(a: seq<real>, base: int, size: int, h: int): Term {
    d => if 0 <= base + h * size + d < |a| then a[base + h * size + d] else 0.0
  }

  /** The number of the pair that element `k` of the array belongs to, counted over all heads. */
  function PairNumber(l: Layout, e: nat, base: nat, size: nat, k: int): int
    requires size > 0
  {
    (k - base) / size * e + l.Pair(e, (k - base) % size)
  }

  /** Element `k` of the array lies in the rotated part of a head, and its pair is done. */
  ghost predicate Turned(l: Layout, e: nat, base: nat, size: nat, heads: nat, done: iset<int>, k: int)
    requires size > 0
  {
    base <= k < base + heads * size && (k - base) % size < 2 * e && PairNumber(l, e, base, size, k) in done
  }

  /** The value element `k` ends with. */
  ghost function Final(l: Layout, e: nat, cos: Term, sin: Term, before: seq<real>, base: nat, size: nat, k: int): real
    requires size > 0
  {
    RotatedAt(l, e, cos, sin, Head(before, base, size, (k - base) / size), (k - base) % size)
  }

  ghost predicate LoopState(l: Layout, e: nat, cos: Term, sin: Term, before: seq<real>, now: seq<real>,
                            base: nat, size: nat, heads: nat, done: iset<int>)
    requires size > 0
  {
    && |now| == |before|
    && (forall k :: 0 <= k < |now| ==>
          now[k] ==
          if Turned(l, e, base, size, heads, done, k) then Final(l, e, cos, sin, before, base, size, k) else before[k])
  }

  /** Where pair `i` of the loop lies in the array. */
  lemma PairPlace(l: Layout, e: nat, base: nat, size: nat, heads: nat, i: nat, d: nat, k: int)
    requires 0 < 2 * e <= size && i < heads * e && d < 2 * e && l.Pair(e, d) == i % e
    requires k == base + i / e * size + d
    ensures base <= k < base + heads * size && (k - base) / size == i / e && (k - base) % size == d
    ensures PairNumber(l, e, base, size, k) == i
  {
    QuotientBelow(i, e, heads);
    InHead(i / e, heads, size, d);
    assert i == i / e * e + i % e;
  }

  lemma InHead(h: nat, heads: nat, size: nat, d: nat)
    requires h < heads && d < size
    ensures 0 <= h * size + d < heads * size && (h * size + d) / size == h && (h * size + d) % size == d
  {
    QuotientUnique(h * size + d, size, h, d);
    TimesMonotone(h + 1, heads, size);
    assert (h + 1) * size == h * size + size;
  }

  /** Round `i` turns exactly the two elements of its pair. */
  lemma TurnedStep(l: Layout, e: nat, base: nat, size: nat, heads: nat, i: nat, done: iset<int>, k: int)
    requires 0 < 2 * e <= size && i < heads * e
    ensures var start := base + i / e * size;
            Turned(l, e, base, size, heads, done + iset{i}, k) <==>
            Turned(l, e, base, size, heads, done, k) || k == start + l.X(e, i % e) || k == start + l.Y(e, i % e)
  {
    var h, off := i / e, i % e;
    var start := base + h * size;
    PairIff(l, e, off, 0);
    PairIff(l, e, off, l.X(e, off));
    PairIff(l, e, off, l.Y(e, off));
    if k == start + l.X(e, off) {
      PairPlace(l, e, base, size, heads, i, l.X(e, off), k);
    } else if k == start + l.Y(e, off) {
      PairPlace(l, e, base, size, heads, i, l.Y(e, off), k);
    } else if base <= k {
      OtherPair(l, e, base, size, heads, i, k);
    }
  }

  lemma OtherPair(l: Layout, e: nat, base: nat, size: nat, heads: nat, i: nat, k: int)
    requires 0 < 2 * e <= size && i < heads * e && base <= k
    requires k != base + i / e * size + l.X(e, i % e) && k != base + i / e * size + l.Y(e, i % e)
    ensures (k - base) % size < 2 * e ==> PairNumber(l, e, base, size, k) != i
  {
    var h, d := (k - base) / size, (k - base) % size;
    assert k - base == h * size + d;
    if d < 2 * e && h * e + l.Pair(e, d) == i {
      PairIff(l, e, 0, d);
      QuotientUnique(i, e, h, l.Pair(e, d));
      PairIff(l, e, i % e, d);
      assert false;
    }
  }

  lemma RoundStep(l: Layout, e: nat, cos: Term, sin: Term, before: seq<real>, now: seq<real>,
                  base: nat, size: nat, heads: nat, i: nat, done: iset<int>)
    requires 0 < 2 * e <= size && i < heads * e && base + heads * size <= |before| && i !in done
    requires LoopState(l, e, cos, sin, before, now, base, size, heads, done)
    ensures var start, off := base + i / e * size, i % e;
            var kx, ky := start + l.X(e, off), start + l.Y(e, off);
            && 0 <= kx < |now| && 0 <= ky < |now| && kx != ky
            && LoopState(l, e, cos, sin, before,
                         now[kx := RotX(now[kx], now[ky], cos(off), sin(off))]
                            [ky := RotY(now[kx], now[ky], cos(off), sin(off))],
                         base, size, heads, done + iset{i})
  {
    hide Turned, Final, RotX, RotY;
    var start, off := base + i / e * size, i % e;
    var kx, ky := start + l.X(e, off), start + l.Y(e, off);
    FinalPair(l, e, cos, sin, before, base, size, heads, i, done);
    forall k | 0 <= k < |now| ensures Turned(l, e, base, size, heads, done + iset{i}, k) <==>
                                      Turned(l, e, base, size, heads, done, k) || k == kx || k == ky
    {
      TurnedStep(l, e, base, size, heads, i, done, k);
    }
  }

  /** What the elements of pair `i` end with. */
  lemma FinalPair(l: Layout, e: nat, cos: Term, sin: Term, before: seq<real>, base: nat, size: nat, heads: nat, i: nat,
                  done: iset<int>)
    requires 0 < 2 * e <= size && i < heads * e && base + heads * size <= |before| && i !in done
    ensures var start, off := base + i / e * size, i % e;
            var kx, ky := start + l.X(e, off), start + l.Y(e, off);
            && 0 <= kx < |before| && 0 <= ky < |before| && kx != ky
            && !Turned(l, e, base, size, heads, done, kx) && !Turned(l, e, base, size, heads, done, ky)
            && Final(l, e, cos, sin, before, base, size, kx) == RotX(before[kx], before[ky], cos(off), sin(off))
            && Final(l, e, cos, sin, before, base, size, ky) == RotY(before[kx], before[ky], cos(off), sin(off))
  {
    hide RotX, RotY, Rotated, RotatedAt, PairNumber;
    var start, off := base + i / e * size, i % e;
    var dx, dy := l.X(e, off), l.Y(e, off);
    PairIff(l, e, off, dx);
    PairIff(l, e, off, dy);
    PairPlace(l, e, base, size, heads, i, dx, start + dx);
    PairPlace(l, e, base, size, heads, i, dy, start + dy);
    PairAt(l, e, cos, sin, Head(before, base, size, i / e), off);
    RotatedIs(l, e, cos, sin, Head(before, base, size, i / e), dx);
    RotatedIs(l, e, cos, sin, Head(before, base, size, i / e), dy);
  }

  lemma RotatedIs(l: Layout, e: nat, cos: Term, sin: Term, v: Term, d: int)
    ensures Rotated(l, e, cos, sin, v)(d) == RotatedAt(l, e, cos, sin, v, d)
  {
  }

  /** Once all pairs are done every head is rotated. */
  lemma AllTurned(l: Layout, e: nat, cos: Term, sin: Term, before: seq<real>, now: seq<real>,
                  base: nat, size: nat, heads: nat, done: iset<int>, h: nat, d: nat)
    requires 2 * e <= size && size > 0 && base + heads * size <= |before| && h < heads && d < size
    requires LoopState(l, e, cos, sin, before, now, base, size, heads, done)
    requires forall i :: 0 <= i < heads * e ==> i in done
    ensures Head(now, base, size, h)(d) == Rotated(l, e, cos, sin, Head(before, base, size, h))(d)
  {
    hide RotX, RotY, Rotated, RotatedAt;
    var k := base + h * size + d;
    RotatedIs(l, e, cos, sin, Head(before, base, size, h), d);
    InHead(h, heads, size, d);
    if d < 2 * e {
      PairIff(l, e, 0, d);
      InHead(h, heads, e, l.Pair(e, d));
      assert Turned(l, e, base, size, heads, done, k);
    } else {
      assert !Turned(l, e, base, size, heads, done, k);
      BeyondPairs(l, e, cos, sin, Head(before, base, size, h), d);
    }
  }

  lemma NothingTurned(l: Layout, e: nat, cos: Term, sin: Term, a: seq<real>, base: nat, size: nat, heads: nat)
    requires size > 0
    ensures LoopState(l, e, cos, sin, a, a, base, size, heads, iset{})
  {
  }

  /** The pairs done when thread `thread` is at pair `at`. */
  ghost function DonePairs(n: int, threads: nat, thread: nat, at: nat): iset<int>
    requires threads > 0
  {
    iset i: int | 0 <= i < n && Handled(i, threads, thread, at)
  }

  lemma NextPair(n: int, threads: nat, thread: nat, at: nat)
    requires threads > 0 && at % threads == thread && at < n
    ensures DonePairs(n, threads, thread, at + threads) == DonePairs(n, threads, thread, at) + iset{at}
    ensures at !in DonePairs(n, threads, thread, at) && (at + threads) % threads == thread
  {
    forall i: nat ensures Handled(i, threads, thread, at + threads) <==> Handled(i, threads, thread, at) || i == at {
      NextHandled(i, threads, thread, at);
    }
    NextHandled(at, threads, thread, at);
  }

  lemma ThreadEnds(n: int, threads: nat, thread: nat, at: nat)
    requires threads > 0 && thread < threads && at >= n
    ensures DonePairs(n, threads, thread, at) == DonePairs(n, threads, thread + 1, thread + 1)
  {
    forall i: nat | i < n ensures Handled(i, threads, thread + 1, thread + 1) <==> Handled(i, threads, thread, at) {
      NextThread(i, threads, thread, at);
    }
  }

  /**
   All pairs of all heads of one token, in place: every thread steps through the pairs with the stride of the block.
   */
  method Rotate(l: Layout, e: nat, cos: Term, sin: Term, a: array<real>, base: nat, size: nat, heads: nat, threads: nat)
    requires 2 * e <= size && size > 0 && base + heads * size <= a.Length && threads > 0
    modifies a
    ensures forall h, d :: 0 <= h < heads && 0 <= d < size ==>
              Head(a[..], base, size, h)(d) == Rotated(l, e, cos, sin, Head(old(a[..]), base, size, h))(d)
    ensures forall h: nat :: h < heads ==> HeadTurned(l, e, cos, sin, old(a[..]), a[..], base, size, h)
    ensures forall k :: 0 <= k < a.Length && !(base <= k < base + heads * size) ==> a[k] == old(a[k])
  {
    hide LoopState, RotX, RotY, DonePairs, Handled, HeadTurned;
    ghost var before := a[..];
    var n, thread := heads * e, 0;
    NothingTurned(l, e, cos, sin, before, base, size, heads);
    assert DonePairs(n, threads, 0, 0) == iset{} by { NoneDone(n, threads); }
    while thread < threads
      invariant thread <= threads
      invariant LoopState(l, e, cos, sin, before, a[..], base, size, heads, DonePairs(n, threads, thread, thread))
    {
      var i := thread;
      QuotientUnique(thread, threads, 0, thread);
      while i < n
        invariant i % threads == thread
        invariant LoopState(l, e, cos, sin, before, a[..], base, size, heads, DonePairs(n, threads, thread, i))
        decreases n - i
      {
        NextPair(n, threads, thread, i);
        RoundStep(l, e, cos, sin, before, a[..], base, size, heads, i, DonePairs(n, threads, thread, i));
        var head, off := i / e, i % e;
        var start := base + head * size;
        var kx, ky := start + l.X(e, off), start + l.Y(e, off);
        var x, y := a[kx], a[ky];
        a[kx] := RotX(x, y, cos(off), sin(off));
        a[ky] := RotY(x, y, cos(off), sin(off));
        i := i + threads;
      }
      ThreadEnds(n, threads, thread, i);
      thread := thread + 1;
    }
    AllDone(n, threads);
    Finished(l, e, cos, sin, before, a[..], base, size, heads, DonePairs(n, threads, threads, threads));
    forall h: nat | h < heads ensures HeadTurned(l, e, cos, sin, before, a[..], base, size, h) {
      RotatedTurns(l, e, cos, sin, before, a[..], base, size, heads, h);
    }
  }

  lemma RotatedTurns(l: Layout, e: nat, cos: Term, sin: Term, before: seq<real>, now: seq<real>, base: nat, size: nat,
                     heads: nat, h: nat)
    requires 2 * e <= size && |before| == |now| && base + heads * size <= |now| && h < heads
    requires forall d :: 0 <= d < size ==>
               Head(now, base, size, h)(d) == Rotated(l, e, cos, sin, Head(before, base, size, h))(d)
    ensures HeadTurned(l, e, cos, sin, before, now, base, size, h)
  {
    hide RotX, RotY, Rotated, Turns, PairTurned;
    var v, v' := Head(before, base, size, h), Head(now, base, size, h);
    var start := base + h * size;
    TimesMonotone(h + 1, heads, size);
    assert (h + 1) * size == h * size + size;
    forall off: nat | off < e ensures PairTurned(l, e, cos, sin, before, now, start, off) {
      ElementsTurn(l, e, cos, sin, v, v', before, now, start, off);
    }
    forall k | start + 2 * e <= k < start + size ensures 0 <= k < |before| && k < |now| && now[k] == before[k] {
      BeyondPairs(l, e, cos, sin, v, k - start);
      assert v'(k - start) == Rotated(l, e, cos, sin, v)(k - start);
    }
  }

  lemma ElementsTurn(l: Layout, e: nat, cos: Term, sin: Term, v: Term, v': Term, before: seq<real>, now: seq<real>,
                     start: nat, off: nat)
    requires off < e && start + 2 * e <= |before| == |now|
    requires forall d :: 0 <= d < 2 * e ==> v(d) == before[start + d] && v'(d) == now[start + d]
    requires forall d :: 0 <= d < 2 * e ==> v'(d) == Rotated(l, e, cos, sin, v)(d)
    ensures PairTurned(l, e, cos, sin, before, now, start, off)
  {
    hide RotX, RotY, Rotated, Turns;
    PairIff(l, e, off, 0);
    PairAt(l, e, cos, sin, v, off);
    FormulasTurn(v(l.X(e, off)), v(l.Y(e, off)), cos(off), sin(off));
  }

  lemma NoneDone(n: int, threads: nat)
    requires threads > 0
    ensures DonePairs(n, threads, 0, 0) == iset{}
  {
    NoneHandled(threads);
  }

  lemma AllDone(n: int, threads: nat)
    requires threads > 0
    ensures forall i :: 0 <= i < n ==> i in DonePairs(n, threads, threads, threads)
  {
    forall i: nat ensures Handled(i, threads, threads, threads) {
      AllHandled(i, threads);
    }
  }

  lemma Finished(l: Layout, e: nat, cos: Term, sin: Term, before: seq<real>, now: seq<real>, base: nat, size: nat,
                 heads: nat, done: iset<int>)
    requires 2 * e <= size && size > 0 && base + heads * size <= |before|
    requires LoopState(l, e, cos, sin, before, now, base, size, heads, done)
    requires forall i :: 0 <= i < heads * e ==> i in done
    ensures forall h, d :: 0 <= h < heads && 0 <= d < size ==>
              Head(now, base, size, h)(d) == Rotated(l, e, cos, sin, Head(before, base, size, h))(d)
    ensures |now| == |before|
    ensures forall k :: 0 <= k < |now| && !(base <= k < base + heads * size) ==> now[k] == before[k]
  {
    hide Rotated, Head;
    forall h, d | 0 <= h < heads && 0 <= d < size
      ensures Head(now, base, size, h)(d) == Rotated(l, e, cos, sin, Head(before, base, size, h))(d)
    {
      AllTurned(l, e, cos, sin, before, now, base, size, heads, done, h, d);
    }
  }

  // ----- What the rotation keeps

  /** The inner product of two heads of `n` elements. */
  function Product(u: Term, w: Term): Term {
    d => u(d) * w(d)
  }

  function Dot(u: Term, w: Term, n: nat): real {
    Sum(n, Product(u, w))
  }

  lemma DotIsSum(u: Term, w: Term, n: nat)
    ensures Dot(u, w, n) == Sum(n, d => u(d) * w(d))
  {
    SumCongruence(n, Product(u, w), d => u(d) * w(d));
  }

  function PairTerm(l: Layout, e: nat, f: Term): Term {
    off => f(l.X(e, off)) + f(l.Y(e, off))
  }

  /** The elements of the rotated part are those of its pairs. */
  lemma SumByPairs(l: Layout, e: nat, f: Term)
    ensures Sum(2 * e, f) == Sum(e, PairTerm(l, e, f))
  {
    if l.NeoX? {
      SumSplit(e, e, f);
      SumAdd(e, f, Shift(f, e), PairTerm(l, e, f));
    } else {
      SumChunks(e, 2, f);
      assert e * 2 == 2 * e;
      forall off | 0 <= off < e ensures ChunkSum(f, 2)(off) == PairTerm(l, e, f)(off) {
        var g := Chunk(f, 2, off);
        SumOfTwo(g);
        assert g(0) == f(l.X(e, off)) && g(1) == f(l.Y(e, off));
      }
      SumCongruence(e, ChunkSum(f, 2), PairTerm(l, e, f));
    }
  }

  lemma SumOfTwo(f: Term)
    ensures Sum(2, f) == f(0) + f(1)
  {
    assert Sum(1, f) == Sum(0, f) + f(0);
  }

  ghost predicate Unit(e: nat, cos: Term, sin: Term) {
    forall off :: 0 <= off < e ==> cos(off) * cos(off) + sin(off) * sin(off) == 1.0
  }

  /** A rotation of the plane keeps the inner product. */
  lemma PlaneDot(x: real, y: real, x': real, y': real, c: real, s: real)
    requires c * c + s * s == 1.0
    ensures RotX(x, y, c, s) * RotX(x', y', c, s) + RotY(x, y, c, s) * RotY(x', y', c, s) == x * x' + y * y'
  {
    var a, b := x * x', y * y';
    Expand(x * c, -(y * s), x' * c, -(y' * s));
    Expand(y * c, x * s, y' * c, x' * s);
    Regroup(x, c, x', c);
    Regroup(y, s, y', s);
    Regroup(y, c, y', c);
    Regroup(x, s, x', s);
    Regroup(x, c, y', s);
    Regroup(y, s, x', c);
    Regroup(y, c, x', s);
    Regroup(x, s, y', c);
    Distributed(a, c * c, s * s);
    Distributed(b, c * c, s * s);
  }

  lemma Expand(p: real, q: real, r: real, t: real)
    ensures (p + q) * (r + t) == p * r + p * t + q * r + q * t
  {
  }

  lemma Regroup(a: real, b: real, c: real, d: real)
    ensures (a * b) * (c * d) == (a * c) * (b * d)
  {
  }

  lemma Distributed(a: real, b: real, c: real)
    ensures a * b + a * c == a * (b + c)
  {
  }

  /** Rotating two heads alike keeps their inner product; with both the same head, its norm. */
  lemma DotKept(l: Layout, e: nat, n: nat, cos: Term, sin: Term, u: Term, w: Term)
    requires 2 * e <= n && Unit(e, cos, sin)
    ensures Dot(Rotated(l, e, cos, sin, u), Rotated(l, e, cos, sin, w), n) == Dot(u, w, n)
    ensures Dot(u, w, n) == Sum(n, d => u(d) * w(d))
  {
    DotIsSum(u, w, n);
    hide RotX, RotY, Rotated, Unit, PairTerm, Product;
    var u', w' := Rotated(l, e, cos, sin, u), Rotated(l, e, cos, sin, w);
    var f, f' := Product(u, w), Product(u', w');
    SumSplit(2 * e, n - 2 * e, f);
    SumSplit(2 * e, n - 2 * e, f');
    SumByPairs(l, e, f);
    SumByPairs(l, e, f');
    forall off | 0 <= off < e ensures PairTerm(l, e, f')(off) == PairTerm(l, e, f)(off) {
      PairKept(l, e, cos, sin, u, w, off);
    }
    SumCongruence(e, PairTerm(l, e, f'), PairTerm(l, e, f));
    forall d | d >= 2 * e ensures f'(d) == f(d) {
      BeyondPairs(l, e, cos, sin, u, d);
      BeyondPairs(l, e, cos, sin, w, d);
      SameProduct(u, w, u', w', d);
    }
    SumCongruence(n - 2 * e, Shift(f', 2 * e), Shift(f, 2 * e));
  }

  lemma SameProduct(u: Term, w: Term, u': Term, w': Term, d: int)
    requires u(d) == u'(d) && w(d) == w'(d)
    ensures Product(u, w)(d) == Product(u', w')(d)
  {
  }

  lemma BeyondPairs(l: Layout, e: nat, cos: Term, sin: Term, v: Term, d: int)
    requires d >= 2 * e
    ensures Rotated(l, e, cos, sin, v)(d) == v(d)
  {
  }

  lemma PairAt(l: Layout, e: nat, cos: Term, sin: Term, v: Term, off: nat)
    requires off < e
    ensures var x, y := v(l.X(e, off)), v(l.Y(e, off));
            && Rotated(l, e, cos, sin, v)(l.X(e, off)) == RotX(x, y, cos(off), sin(off))
            && Rotated(l, e, cos, sin, v)(l.Y(e, off)) == RotY(x, y, cos(off), sin(off))
  {
    hide RotX, RotY;
    PairIff(l, e, off, l.X(e, off));
    PairIff(l, e, off, l.Y(e, off));
  }

  lemma PairKept(l: Layout, e: nat, cos: Term, sin: Term, u: Term, w: Term, off: nat)
    requires off < e && Unit(e, cos, sin)
    ensures PairTerm(l, e, Product(Rotated(l, e, cos, sin, u), Rotated(l, e, cos, sin, w)))(off)
            == PairTerm(l, e, Product(u, w))(off)
  {
    hide RotX, RotY, Rotated;
    PairAt(l, e, cos, sin, u, off);
    PairAt(l, e, cos, sin, w, off);
    PlaneDot(u(l.X(e, off)), u(l.Y(e, off)), w(l.X(e, off)), w(l.Y(e, off)), cos(off), sin(off));
  }

  // ----- Positions

  /** Cosines and sines by position and pair, with the addition laws. */
  datatype Angles = Angles(cos: (int, int) -> real, sin: (int, int) -> real) {
    ghost predicate Laws() {
      && (forall p, off :: cos(p, off) * cos(p, off) + sin(p, off) * sin(p, off) == 1.0)
      && (forall p, q, off :: cos(p + q, off) == cos(p, off) * cos(q, off) - sin(p, off) * sin(q, off))
      && (forall p, q, off :: sin(p + q, off) == sin(p, off) * cos(q, off) + cos(p, off) * sin(q, off))
    }
  }

  /** A head at position `p`. */
  function AtPosition(l: Layout, e: nat, angles: Angles, p: int, v: Term): Term {
    Rotated(l, e, Along(angles.cos, p), Along(angles.sin, p), v)
  }

  /** Each of its pairs is turned by the angle of the position and the pair; the rest of the head is as it was. */
  lemma PositionTurns(l: Layout, e: nat, angles: Angles, p: int, v: Term, off: nat, d: nat)
    requires off < e && d >= 2 * e
    ensures var v' := AtPosition(l, e, angles, p, v);
            var kx := if l.NeoX? then off else 2 * off;
            var ky := if l.NeoX? then e + off else 2 * off + 1;
            && Turns(v(kx), v(ky), v'(kx), v'(ky), angles.cos(p, off), angles.sin(p, off)) && v'(d) == v(d)
  {
    hide RotX, RotY, Rotated, Turns;
    PairAt(l, e, Along(angles.cos, p), Along(angles.sin, p), v, off);
    FormulasTurn(v(l.X(e, off)), v(l.Y(e, off)), angles.cos(p, off), angles.sin(p, off));
    BeyondPairs(l, e, Along(angles.cos, p), Along(angles.sin, p), v, d);
  }

  lemma PlaneCompose(x: real, y: real, c: real, s: real, c': real, s': real)
    ensures RotX(RotX(x, y, c, s), RotY(x, y, c, s), c', s') == RotX(x, y, c * c' - s * s', s * c' + c * s')
    ensures RotY(RotX(x, y, c, s), RotY(x, y, c, s), c', s') == RotY(x, y, c * c' - s * s', s * c' + c * s')
  {
    Nested(x, c, y, s, c', s');
    Nested(y, c, -x, s, c', s');
  }

  lemma Nested(x: real, c: real, y: real, s: real, c': real, s': real)
    ensures (x * c - y * s) * c' - (y * c + x * s) * s' == x * (c * c' - s * s') - y * (s * c' + c * s')
  {
  }

  lemma AngleSum(angles: Angles, p: int, q: int, off: int)
    requires angles.Laws()
    ensures angles.cos(p + q, off) == angles.cos(p, off) * angles.cos(q, off) - angles.sin(p, off) * angles.sin(q, off)
    ensures angles.sin(p + q, off) == angles.sin(p, off) * angles.cos(q, off) + angles.cos(p, off) * angles.sin(q, off)
  {
  }

  /** Moving a head on by `q` positions is rotating it once more. */
  lemma Compose(l: Layout, e: nat, angles: Angles, p: int, q: int, v: Term, d: nat)
    requires angles.Laws()
    ensures AtPosition(l, e, angles, p + q, v)(d) == AtPosition(l, e, angles, q, AtPosition(l, e, angles, p, v))(d)
  {
    hide RotX, RotY, Angles.Laws, Rotated;
    var once := AtPosition(l, e, angles, p, v);
    if d < 2 * e {
      var off := l.Pair(e, d);
      PairIff(l, e, 0, d);
      PairIff(l, e, off, d);
      PairAt(l, e, Along(angles.cos, p), Along(angles.sin, p), v, off);
      PairAt(l, e, Along(angles.cos, q), Along(angles.sin, q), once, off);
      PairAt(l, e, Along(angles.cos, p + q), Along(angles.sin, p + q), v, off);
      PlaneMoves(angles, v(l.X(e, off)), v(l.Y(e, off)), p, q, off);
    } else {
      BeyondPairs(l, e, Along(angles.cos, p), Along(angles.sin, p), v, d);
      BeyondPairs(l, e, Along(angles.cos, q), Along(angles.sin, q), once, d);
      BeyondPairs(l, e, Along(angles.cos, p + q), Along(angles.sin, p + q), v, d);
    }
  }

  lemma PlaneMoves(angles: Angles, x: real, y: real, p: int, q: int, off: int)
    requires angles.Laws()
    ensures var c, s, c', s' := angles.cos(p, off), angles.sin(p, off), angles.cos(q, off), angles.sin(q, off);
            && RotX(RotX(x, y, c, s), RotY(x, y, c, s), c', s') ==
               RotX(x, y, angles.cos(p + q, off), angles.sin(p + q, off))
            && RotY(RotX(x, y, c, s), RotY(x, y, c, s), c', s') ==
               RotY(x, y, angles.cos(p + q, off), angles.sin(p + q, off))
  {
    hide RotX, RotY, Angles.Laws;
    AngleSum(angles, p, q, off);
    var c, s, c', s' := angles.cos(p, off), angles.sin(p, off), angles.cos(q, off), angles.sin(q, off);
    PlaneCompose(x, y, c, s, c', s');
    assert c * c' - s * s' == angles.cos(p + q, off) && s * c' + c * s' == angles.sin(p + q, off);
  }

  /** The product of a query and a key depends on their positions only through the difference. */
  lemma RelativePosition(l: Layout, e: nat, n: nat, angles: Angles, query: Term, key: Term, p: int, q: int, shift: int)
    requires 2 * e <= n && angles.Laws()
    ensures Dot(AtPosition(l, e, angles, p + shift, query), AtPosition(l, e, angles, q + shift, key), n)
            == Dot(AtPosition(l, e, angles, p, query), AtPosition(l, e, angles, q, key), n)
    ensures var u, w := AtPosition(l, e, angles, p, query), AtPosition(l, e, angles, q, key);
            Dot(u, w, n) == Sum(n, d => u(d) * w(d))
  {
    DotIsSum(AtPosition(l, e, angles, p, query), AtPosition(l, e, angles, q, key), n);
    hide AtPosition, Angles.Laws, Product;
    var u, w := AtPosition(l, e, angles, p, query), AtPosition(l, e, angles, q, key);
    var u', w' := AtPosition(l, e, angles, p + shift, query), AtPosition(l, e, angles, q + shift, key);
    var u'', w'' := AtPosition(l, e, angles, shift, u), AtPosition(l, e, angles, shift, w);
    MovedAlike(l, e, n, angles, shift, u, w);
    forall d | 0 <= d < n ensures Product(u', w')(d) == Product(u'', w'')(d) {
      Compose(l, e, angles, p, shift, query, d);
      Compose(l, e, angles, q, shift, key, d);
      SameProduct(u', w', u'', w'', d);
    }
    SumCongruence(n, Product(u', w'), Product(u'', w''));
  }

  lemma MovedAlike(l: Layout, e: nat, n: nat, angles: Angles, shift: int, u: Term, w: Term)
    requires 2 * e <= n && angles.Laws()
    ensures Dot(AtPosition(l, e, angles, shift, u), AtPosition(l, e, angles, shift, w), n) == Dot(u, w, n)
  {
    UnitAt(e, angles, shift);
    hide Angles.Laws;
    DotKept(l, e, n, Along(angles.cos, shift), Along(angles.sin, shift), u, w);
  }

  lemma UnitAt(e: nat, angles: Angles, p: int)
    requires angles.Laws()
    ensures Unit(e, Along(angles.cos, p), Along(angles.sin, p))
  {
  }

  // ----- The two layouts

  /** Where element `d` of the interleaved layout is in the split one. */
  function Unzip(e: nat, d: int): int {
    if 0 <= d < 2 * e then GptJ.Pair(e, d) + (if d % 2 == 0 then 0 else e) else d
  }

  function Interleaved(e: nat, v: Term): Term {
    d => v(Unzip(e, d))
  }

  /** `Unzip` permutes the elements of a head. */
  lemma UnzipPermutes(e: nat, n: nat, d: nat, d': nat)
    requires 2 * e <= n && d < n && d' < n
    ensures 0 <= Unzip(e, d) < n
    ensures Unzip(e, d) == Unzip(e, d') <==> d == d'
  {
  }

  /** The layouts agree up to that permutation. */
  lemma LayoutsAgree(e: nat, cos: Term, sin: Term, v: Term, d: int)
    ensures Rotated(GptJ, e, cos, sin, Interleaved(e, v))(d) == Interleaved(e, Rotated(NeoX, e, cos, sin, v))(d)
  {
    hide RotX, RotY, Rotated;
    if d < 0 || d >= 2 * e {
      RotatedIs(GptJ, e, cos, sin, Interleaved(e, v), d);
      RotatedIs(NeoX, e, cos, sin, v, d);
      assert Unzip(e, d) == d;
    } else {
      var off := d / 2;
      PairIff(GptJ, e, off, d);
      PairAt(GptJ, e, cos, sin, Interleaved(e, v), off);
      PairAt(NeoX, e, cos, sin, v, off);
      assert Unzip(e, 2 * off) == off && Unzip(e, 2 * off + 1) == e + off;
      assert d == 2 * off || d == 2 * off + 1;
    }
  }
}
