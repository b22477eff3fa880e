/**
 The second half of `paged_attention_kernel` (kernels/attention_kernel.cu): the exponentials in strides over all
 threads, their sum, the normalisation, and the weighted sum of the values, split over the lanes and warps and put
 together by butterflies and the cross-warp loop.
 */
module ValuePass {
  import opened Outcomes
  import opened Arithmetic
  import opened Reductions
  import opened Sums
  import opened Tiling

  // ----- Strided passes over the logits

  /** `f` of the first `n` cells and their indices. */
  function Mapped(f: (int, real) -> real, cells: seq<real>, n: nat): Term {
    i => if 0 <= i < n && i < |cells| then f(i, cells[i]) else 0.0
  }

  /** Cells below `n` whose remainder is in `[0, done)`, and of remainder `done` those below `i`, have been mapped. */
  ghost predicate PassState(f: (int, real) -> real, before: seq<real>, now: seq<real>, n: nat, threads: nat, done: nat,
                            i: nat)
    requires threads > 0
  {
    && |before| == |now|
    && (forall k :: 0 <= k < |now| ==>
          now[k] ==
          if k < n && (k % threads < done || (k % threads == done && k < i)) then f(k, before[k]) else before[k])
  }

  lemma PassStep(f: (int, real) -> real, before: seq<real>, now: seq<real>, n: nat, threads: nat, done: nat, i: nat)
    requires threads > 0 && PassState(f, before, now, n, threads, done, i) && i < n <= |now| && i % threads == done
    ensures now[i] == before[i]
    ensures PassState(f, before, now[i := f(i, now[i])], n, threads, done, i + threads)
  {
    forall k | i < k < i + threads ensures k % threads != done {
      if k % threads == done {
        SameRemainder(i, k, threads);
      }
    }
  }

  /** A thread starts at its own index and stops at the first index of its stride beyond `n`. */
  lemma PassEnds(f: (int, real) -> real, before: seq<real>, now: seq<real>, n: nat, threads: nat, done: nat, i: nat)
    requires threads > 0 && |before| == |now|
    ensures PassState(f, before, now, n, threads, done, done) <==> PassState(f, before, now, n, threads, done, 0)
    ensures i >= n && PassState(f, before, now, n, threads, done, i) ==>
              PassState(f, before, now, n, threads, done + 1, 0)
  {
    forall k: nat | k < done ensures k % threads != done {
      RemainderAtMost(k, threads);
    }
  }

  /** Thread `id` maps its stride in place and returns the sum of what it wrote. */
  method PassThread(f: (int, real) -> real, n: nat, threads: nat, id: nat, ghost before: seq<real>, cells: array<real>)
    returns (sum: real)
    requires id < threads && n <= cells.Length && PassState(f, before, cells[..], n, threads, id, 0)
    modifies cells
    ensures PassState(f, before, cells[..], n, threads, id + 1, 0)
    ensures sum == Sum(n, Stride(Mapped(f, before, n), threads, id))
  {
    hide PassState;
    sum := 0.0;
    var i := id;
    ghost var rounds: nat, g := 0, Stride(Mapped(f, before, n), threads, id);
    SameCells(f, before, cells[..], n, threads, id);
    PassEnds(f, before, cells[..], n, threads, id, 0);
    while i < n
      invariant i == id + rounds * threads && rounds <= i && i % threads == id
      invariant PassState(f, before, cells[..], n, threads, id, i)
      invariant sum == Sum(rounds, g)
      decreases n - i
    {
      SameCells(f, before, cells[..], n, threads, id);
      PassStep(f, before, cells[..], n, threads, id, i);
      var val := f(i, cells[i]);
      cells[i] := val;
      sum := sum + val;
      assert g(rounds) == val;
      AddMultiple(i, threads, 1);
      assert (rounds + 1) * threads == rounds * threads + threads;
      rounds := rounds + 1;
      i := i + threads;
    }
    SameCells(f, before, cells[..], n, threads, id);
    PassEnds(f, before, cells[..], n, threads, id, i);
    RestIsZero(f, before, n, threads, id, rounds);
  }

  lemma SameCells(f: (int, real) -> real, before: seq<real>, now: seq<real>, n: nat, threads: nat, done: nat)
    requires threads > 0
    ensures forall i :: PassState(f, before, now, n, threads, done, i) ==> |before| == |now|
    ensures 0 <= done < threads ==> done % threads == done
  {
    if done < threads {
      QuotientUnique(done, threads, 0, done);
    }
  }

  lemma RestIsZero(f: (int, real) -> real, before: seq<real>, n: nat, threads: nat, id: nat, rounds: nat)
    requires threads > 0 && id + rounds * threads >= n
    ensures var g := Stride(Mapped(f, before, n), threads, id); Sum(n, g) == Sum(rounds, g)
  {
    var g := Stride(Mapped(f, before, n), threads, id);
    forall k: int | k >= rounds || k >= n ensures g(k) == 0.0 {
      if k >= rounds {
        TimesMonotone(rounds, k, threads);
      } else {
        TimesMonotone(1, threads, k);
        assert k * threads == threads * k;
      }
    }
    if rounds <= n {
      SumPadded(rounds, n, g);
    } else {
      SumPadded(n, rounds, g);
    }
  }

  /** All threads: every cell below `n` is mapped once, and the sums together are the sum over the cells. */
  method Pass(f: (int, real) -> real, n: nat, threads: nat, cells: array<real>) returns (sums: seq<real>)
    requires threads > 0 && n <= cells.Length
    modifies cells
    ensures forall k :: 0 <= k < cells.Length ==> cells[k] == if k < n then f(k, old(cells[k])) else old(cells[k])
    ensures |sums| == threads && Sum(threads, At(sums)) == Sum(n, Mapped(f, old(cells[..]), n))
  {
    sums := [];
    ghost var before := cells[..];
    while |sums| < threads
      invariant |sums| <= threads && PassState(f, before, cells[..], n, threads, |sums|, 0)
      invariant forall w :: 0 <= w < |sums| ==> sums[w] == Sum(n, Stride(Mapped(f, before, n), threads, w))
    {
      var sum := PassThread(f, n, threads, |sums|, before, cells);
      sums := sums + [sum];
    }
    var g := Mapped(f, before, n);
    SumCongruence(threads, At(sums), StrideSum(g, threads, n));
    SumStrides(threads, n, g);
    TimesMonotone(1, threads, n);
    assert n * threads == threads * n;
    SumPadded(n, n * threads, g);
  }

  // ----- The sum over the thread block

  function Warps(sums: seq<real>, warp: nat, warps: nat): seq<seq<real>>
    requires |sums| == warps * warp
  {
    seq(warps, w requires 0 <= w < warps => WarpRange(w, warp, warps); sums[w * warp..w * warp + warp])
  }

  lemma WarpRange(w: nat, warp: nat, warps: nat)
    requires w < warps
    ensures 0 <= w * warp <= w * warp + warp <= warps * warp
  {
    TimesMonotone(w + 1, warps, warp);
    assert (w + 1) * warp == w * warp + warp;
  }

  lemma {:induction false} FlatWarps(sums: seq<real>, warp: nat, warps: nat)
    requires |sums| == warps * warp
    ensures Flat(Warps(sums, warp, warps)) == sums
    decreases warps
  {
    var ws := Warps(sums, warp, warps);
    if warps == 0 {
      assert sums == [];
    } else {
      WarpRange(0, warp, warps);
      var rest := sums[warp..];
      assert |rest| == (warps - 1) * warp;
      var rs := Warps(rest, warp, warps - 1);
      forall w | 0 <= w < warps - 1 ensures ws[1..][w] == rs[w] {
        WarpRange(w, warp, warps - 1);
        WarpRange(w + 1, warp, warps);
        assert (w + 1) * warp == w * warp + warp;
        assert ws[w + 1] == sums[w * warp + warp..w * warp + warp + warp];
      }
      assert ws[1..] == rs;
      FlatWarps(rest, warp, warps - 1);
      assert 0 * warp == 0;
      assert ws[0] == sums[..warp];
      assert sums == sums[..warp] + rest;
    }
  }

  lemma WarpShapes(sums: seq<real>, warp: nat, warps: nat)
    requires |sums| == warps * warp
    ensures var ws := Warps(sums, warp, warps); |ws| == warps && (forall k :: 0 <= k < warps ==> |ws[k]| == warp)
  {
    forall k | 0 <= k < warps ensures |Warps(sums, warp, warps)[k]| == warp {
      WarpRange(k, warp, warps);
    }
  }

  /** `block_sum` over one value per thread. */
  method BlockSum(sums: seq<real>, warp: nat, warps: nat) returns (total: real)
    requires warp > 0 && warp % 2 == 0 && IsPowerOfTwo(warp / 2) && IsPowerOfTwo(warps) && warps <= warp
    requires |sums| == warps * warp
    ensures total == Sum(|sums|, At(sums))
  {
    PlusLaws();
    hide Laws, Plus, Flat;
    FlatWarps(sums, warp, warps);
    WarpShapes(sums, warp, warps);
    hide Warps;
    var results := BlockReduce(Plus(), Warps(sums, warp, warps), warp / 2);
    total := results[0];
    TotalIsSum(sums);
  }

  // ----- The values

  /** `v(b, row, o)` is the element of that row at offset `o` of block `b` of the sequence's table. */
  type Values = (int, int, int) -> real

  /** The constants of the value loop. */
  datatype Lanes = Lanes(grid: Grid, vec: nat) {
    predicate Valid() {
      && grid.Valid() && vec > 0 && grid.blockSize % vec == 0
      && IsPowerOfTwo(grid.blockSize / vec) && grid.warp % (grid.blockSize / vec) == 0
      && IsPowerOfTwo(grid.warps)
    }

    /** `NUM_V_VECS_PER_ROW`. */
    function RowVecs(): nat
      requires vec > 0
    {
      grid.blockSize / vec
    }

    /** `NUM_ROWS_PER_ITER`. */
    function RowsPerIter(): nat
      requires Valid()
    {
      grid.warp / RowVecs()
    }
  }

  /** The contribution of token `t` of the span to a row. */
  function RowTerm(span: Span, logits: seq<real>, v: Values, row: int): Term
    requires span.blockSize > 0
  {
    t => if 0 <= t < span.Tokens() && t < |logits|
         then logits[t] * v(span.startBlock + t / span.blockSize, row, t % span.blockSize) else 0.0
  }

  /** What one lane adds for block `c` of the span. */
  function LaneTerm(f: Term, blockSize: nat, vec: nat, l: int): Term {
    c => Sum(vec, Chunk(Chunk(f, blockSize, c), vec, l))
  }

  /** Only the context's last block is masked, and that is enough. */
  lemma MaskedTerm(span: Span, logits: seq<real>, v: Values, row: int, c: nat, o: nat)
    requires span.Valid() && c < span.Blocks() && o < span.blockSize && |logits| >= span.Blocks() * span.blockSize
    ensures var t, b := c * span.blockSize + o, span.startBlock + c;
            && 0 <= t < |logits|
            && RowTerm(span, logits, v, row)(t) == logits[t] * Unmasked(span, v, row, b, o)
  {
    hide Span.Tokens, CeilDiv;
    QuotientUnique(c * span.blockSize + o, span.blockSize, c, o);
    WarpRange(c, span.blockSize, span.Blocks());
    TokenInContext(span, c, o);
  }

  /** Offset `o` of the span's block `c` is in the context exactly when the kernel does not mask it. */
  lemma TokenInContext(span: Span, c: nat, o: nat)
    requires span.Valid() && c < span.Blocks() && o < span.blockSize
    ensures var b := span.startBlock + c;
            c * span.blockSize + o < span.Tokens() <==>
            !(b == CeilDiv(span.context, span.blockSize) - 1 && b * span.blockSize + o >= span.context)
  {
    var bs, b, blocks := span.blockSize, span.startBlock + c, CeilDiv(span.context, span.blockSize);
    ContextBlocks(span.context, bs);
    hide CeilDiv;
    WarpRange(c, bs, span.Blocks());
    assert b * bs == span.startBlock * bs + c * bs;
    if b < blocks - 1 {
      WarpRange(b, bs, blocks - 1);
    }
  }

  /** One lane's accumulator for one row. */
  method LaneSum(ls: Lanes, span: Span, logits: seq<real>, v: Values, w: nat, lane: nat, row: int) returns (acc: real)
    requires ls.Valid() && span.Valid() && span.blockSize == ls.grid.blockSize && w < ls.grid.warps
    requires |logits| >= span.Blocks() * span.blockSize
    ensures acc ==
            Sum(span.Blocks(),
                Stride(LaneTerm(RowTerm(span, logits, v, row), span.blockSize, ls.vec, lane % ls.RowVecs()),
                       ls.grid.warps, w))
  {
    hide RowTerm;
    ghost var f := RowTerm(span, logits, v, row);
    var bs, l := span.blockSize, lane % ls.RowVecs();
    ghost var g := Stride(LaneTerm(f, bs, ls.vec, l), ls.grid.warps, w);
    ghost var rounds := 0;
    acc := 0.0;
    var b := span.startBlock + w;
    while b < span.endBlock
      invariant b == span.startBlock + w + rounds * ls.grid.warps && acc == Sum(rounds, g)
    {
      var dot := BlockDot(span, logits, v, row, ls.vec, l, b);
      acc := acc + dot;
      assert g(rounds) == dot;
      assert (rounds + 1) * ls.grid.warps == rounds * ls.grid.warps + ls.grid.warps;
      rounds := rounds + 1;
      b := b + ls.grid.warps;
    }
    LaneRest(ls, span, logits, v, row, l, w, rounds);
  }

  /** The product of a vector of logits with the values of block `b`, masked at the end of the context. */
  method BlockDot(span: Span, logits: seq<real>, v: Values, row: int, vec: nat, l: nat, b: nat) returns (dot: real)
    requires span.Valid() && vec > 0 && span.blockSize % vec == 0 && l < span.blockSize / vec
    requires |logits| >= span.Blocks() * span.blockSize && span.startBlock <= b < span.endBlock
    ensures dot == LaneTerm(RowTerm(span, logits, v, row), span.blockSize, vec, l)(b - span.startBlock)
  {
    ghost var f := Chunk(Chunk(RowTerm(span, logits, v, row), span.blockSize, b - span.startBlock), vec, l);
    hide RowTerm, Chunk, Span.Blocks;
    var j := 0;
    dot := 0.0;
    while j < vec
      invariant j <= vec && dot == Sum(j, f)
    {
      var product := DotElement(span, logits, v, row, vec, l, b, j);
      dot := dot + product;
      j := j + 1;
    }
  }

  method DotElement(span: Span, logits: seq<real>, v: Values, row: int, vec: nat, l: nat, b: nat, j: nat)
    returns (product: real)
    requires span.Valid() && vec > 0 && span.blockSize % vec == 0 && l < span.blockSize / vec && j < vec
    requires |logits| >= span.Blocks() * span.blockSize && span.startBlock <= b < span.endBlock
    ensures product == Chunk(Chunk(RowTerm(span, logits, v, row), span.blockSize, b - span.startBlock), vec, l)(j)
  {
    hide RowTerm, Chunk, CeilDiv, Span.Blocks;
    DotTerm(span, logits, v, row, vec, l, b, j);
    var offset := l * vec;
    var token := b * span.blockSize + offset;
    var last := b == CeilDiv(span.context, span.blockSize) - 1;
    var value := if last && token + j >= span.context then 0.0 else v(b, row, offset + j);
    assert value == Unmasked(span, v, row, b, offset + j);
    product := logits[token - span.startBlock * span.blockSize + j] * value;
  }

  /** The kernel's value at offset `o` of block `b`: zero beyond the context in its last block. */
  function Unmasked(span: Span, v: Values, row: int, b: int, o: int): real
    requires span.blockSize > 0
  {
    if b == CeilDiv(span.context, span.blockSize) - 1 && b * span.blockSize + o >= span.context then
      0.0
    else
      v(b, row, o)
  }

  lemma DotTerm(span: Span, logits: seq<real>, v: Values, row: int, vec: nat, l: nat, b: nat, j: nat)
    requires span.Valid() && vec > 0 && span.blockSize % vec == 0 && l < span.blockSize / vec && j < vec
    requires |logits| >= span.Blocks() * span.blockSize && span.startBlock <= b < span.endBlock
    ensures var cell := b * span.blockSize + l * vec - span.startBlock * span.blockSize + j;
            && 0 <= cell < |logits|
            && Chunk(Chunk(RowTerm(span, logits, v, row), span.blockSize, b - span.startBlock), vec, l)(j)
               == logits[cell] * Unmasked(span, v, row, b, l * vec + j)
  {
    hide RowTerm, CeilDiv, Span.Valid, Unmasked;
    OffsetInBlock(l, j, vec, span.blockSize);
    MaskedTerm(span, logits, v, row, b - span.startBlock, l * vec + j);
    CellOf(b, span.startBlock, span.blockSize, l * vec + j);
  }

  lemma CellOf(b: int, start: int, bs: int, o: int)
    ensures b * bs + o - start * bs == (b - start) * bs + o
  {
  }

  lemma OffsetInBlock(l: nat, j: nat, vec: nat, bs: nat)
    requires vec > 0 && bs % vec == 0 && l < bs / vec && j < vec
    ensures l * vec + j < bs
  {
    WarpRange(l, vec, bs / vec);
  }

  lemma LaneRest(ls: Lanes, span: Span, logits: seq<real>, v: Values, row: int, l: nat, w: nat, rounds: nat)
    requires ls.Valid() && span.Valid() && span.blockSize == ls.grid.blockSize
    requires w + rounds * ls.grid.warps >= span.Blocks()
    ensures var g := Stride(LaneTerm(RowTerm(span, logits, v, row), span.blockSize, ls.vec, l), ls.grid.warps, w);
            Sum(span.Blocks(), g) == Sum(rounds, g)
  {
    var warps, blocks := ls.grid.warps, span.Blocks();
    var h := LaneTerm(RowTerm(span, logits, v, row), span.blockSize, ls.vec, l);
    var g := Stride(h, warps, w);
    forall k: int | k >= rounds || k >= blocks ensures g(k) == 0.0 {
      if k >= rounds {
        TimesMonotone(rounds, k, warps);
      } else {
        TimesMonotone(1, warps, k);
        assert k * warps == warps * k;
      }
      BeyondSpan(ls, span, logits, v, row, l, w + k * warps);
    }
    if rounds <= blocks {
      SumPadded(rounds, blocks, g);
    } else {
      SumPadded(blocks, rounds, g);
    }
  }

  /** Blocks beyond the span contribute nothing. */
  lemma BeyondSpan(ls: Lanes, span: Span, logits: seq<real>, v: Values, row: int, l: nat, c: int)
    requires ls.Valid() && span.Valid() && span.blockSize == ls.grid.blockSize && c >= span.Blocks()
    ensures LaneTerm(RowTerm(span, logits, v, row), span.blockSize, ls.vec, l)(c) == 0.0
  {
    var f := RowTerm(span, logits, v, row);
    TimesMonotone(span.Blocks(), c, span.blockSize);
    assert l * ls.vec >= 0;
    SumZero(ls.vec, Chunk(Chunk(f, span.blockSize, c), ls.vec, l));
  }
}
