/**
 `paged_attention_kernel` (kernels/attention_kernel.cu) for one span of the context and one row of the output, threads
 one after the other between barriers: it refines the softmax of one stretch of the context.
 */
module AttentionKernel {
  import opened Outcomes
  import opened Arithmetic
  import opened Reductions
  import opened Sums
  import opened Tiling
  import opened Attention
  import opened KeyPass
  import opened ValuePass

  // ----- One row over the lanes of a warp

  /** What lane `l` of a row's lanes adds in round `k` of warp `w`. */
  function LaneRound(f: Term, bs: nat, vec: nat, warps: nat, w: int): (int, int) -> real {
    (l, k) => LaneTerm(f, bs, vec, l)(w + k * warps)
  }

  function LaneTotal(f: Term, bs: nat, vec: nat, warps: nat, w: int, blocks: nat): Term {
    l => Sum(blocks, Stride(LaneTerm(f, bs, vec, l), warps, w))
  }

  /** The lanes of a row add up to whole blocks. */
  lemma LanesAddUp(f: Term, bs: nat, vec: nat, n: nat, warps: nat, w: nat, blocks: nat)
    requires n * vec == bs
    ensures Sum(n, LaneTotal(f, bs, vec, warps, w, blocks)) == Sum(blocks, Stride(ChunkSum(f, bs), warps, w))
  {
    var F := LaneRound(f, bs, vec, warps, w);
    forall l | 0 <= l < n ensures LaneTotal(f, bs, vec, warps, w, blocks)(l) == Sum(blocks, Along(F, l)) {
      SumCongruence(blocks, Stride(LaneTerm(f, bs, vec, l), warps, w), Along(F, l));
    }
    SumCongruence(n, LaneTotal(f, bs, vec, warps, w, blocks), l => Sum(blocks, Along(F, l)));
    SumSwap(n, blocks, F);
    forall k | 0 <= k < blocks ensures Sum(n, Across(F, k)) == Stride(ChunkSum(f, bs), warps, w)(k) {
      var g := Chunk(f, bs, w + k * warps);
      SumCongruence(n, Across(F, k), ChunkSum(g, vec));
      SumChunks(n, vec, g);
    }
    SumCongruence(blocks, k => Sum(n, Across(F, k)), Stride(ChunkSum(f, bs), warps, w));
  }

  /** The lanes that work on `row`, in the round of rows it belongs to. */
  lemma RowLanes(row: nat, lane: nat, vecs: nat, rows: nat)
    requires vecs > 0 && rows > 0 && row % rows * vecs <= lane < row % rows * vecs + vecs
    ensures lane / vecs + row / rows * rows == row && lane % vecs == lane - row % rows * vecs
  {
    QuotientUnique(lane, vecs, row % rows, lane - row % rows * vecs);
  }

  /** The lanes that work on `row` hold the terms of `t`. */
  ghost predicate RowLanesHold(lanes: seq<real>, t: Term, vecs: nat, rows: nat, row: nat)
    requires vecs > 0 && rows > 0
  {
    forall lane :: 0 <= lane < |lanes| && lane / vecs + row / rows * rows == row ==> lanes[lane] == t(lane % vecs)
  }

  lemma NoLanesHold(t: Term, vecs: nat, rows: nat, row: nat)
    requires vecs > 0 && rows > 0
    ensures RowLanesHold([], t, vecs, rows, row)
  {
  }

  lemma LaneHeld(lanes: seq<real>, t: Term, vecs: nat, rows: nat, row: nat, acc: real)
    requires vecs > 0 && rows > 0 && RowLanesHold(lanes, t, vecs, rows, row)
    requires |lanes| / vecs + row / rows * rows == row ==> acc == t(|lanes| % vecs)
    ensures RowLanesHold(lanes + [acc], t, vecs, rows, row)
  {
  }

  lemma RowSlice(lanes: seq<real>, t: Term, vecs: nat, rows: nat, row: nat)
    requires vecs > 0 && rows > 0 && |lanes| == rows * vecs && RowLanesHold(lanes, t, vecs, rows, row)
    ensures var lo := row % rows * vecs;
            0 <= lo <= lo + vecs <= |lanes| && Sum(vecs, At(lanes[lo..lo + vecs])) == Sum(vecs, t)
  {
    var lo := row % rows * vecs;
    WarpRange(row % rows, vecs, rows);
    forall l | 0 <= l < vecs ensures At(lanes[lo..lo + vecs])(l) == t(l) {
      RowLanes(row, lo + l, vecs, rows);
    }
    SumCongruence(vecs, At(lanes[lo..lo + vecs]), t);
  }

  /**
   Row `row` in warp `w`: every lane accumulates, the lanes of the row add up by a butterfly, the first one has the
   result.
   */
  method WarpRow(ls: Lanes, span: Span, logits: seq<real>, v: Values, head: nat, w: nat, row: nat) returns (acc: real)
    requires ls.Valid() && span.Valid() && span.blockSize == ls.grid.blockSize && w < ls.grid.warps && row < head
    requires |logits| >= span.Blocks() * span.blockSize
    ensures acc == Sum(span.Blocks(), Stride(ChunkSum(RowTerm(span, logits, v, row), span.blockSize), ls.grid.warps, w))
  {
    hide Lanes.Valid, Grid.Valid, Span.Valid, Lanes.RowVecs, Lanes.RowsPerIter, RowTerm, LaneTotal, ChunkSum,
         RowLanesHold;
    LanesShape(ls);
    SpanTokens(span);
    var lanes := WarpLanes(ls, span, logits, v, head, w, row);
    acc := RowSum(lanes, ls.RowVecs(), ls.RowsPerIter(), row,
                  LaneTotal(RowTerm(span, logits, v, row), span.blockSize, ls.vec, ls.grid.warps, w, span.Blocks()));
    LanesAddUp(RowTerm(span, logits, v, row), span.blockSize, ls.vec, ls.RowVecs(), ls.grid.warps, w, span.Blocks());
  }

  /** The butterfly over the lanes of a row. */
  method RowSum(lanes: seq<real>, vecs: nat, rows: nat, row: nat, ghost t: Term) returns (sum: real)
    requires IsPowerOfTwo(vecs) && rows > 0 && |lanes| == rows * vecs && RowLanesHold(lanes, t, vecs, rows, row)
    ensures sum == Sum(vecs, t)
  {
    RowSlice(lanes, t, vecs, rows, row);
    MultipleOf(rows, vecs);
    sum := GroupSum(lanes, row % rows, vecs);
  }

  lemma MultipleOf(k: nat, n: nat)
    requires n > 0
    ensures k * n % n == 0
  {
    QuotientUnique(k * n, n, k, 0);
  }

  /** The accumulators of all lanes of warp `w`, in the round of rows that `row` belongs to. */
  method WarpLanes(ls: Lanes, span: Span, logits: seq<real>, v: Values, head: nat, w: nat, row: nat)
    returns (lanes: seq<real>)
    requires ls.Valid() && span.Valid() && span.blockSize == ls.grid.blockSize && w < ls.grid.warps && row < head
    requires |logits| >= span.Blocks() * span.blockSize && ls.RowVecs() > 0 && ls.RowsPerIter() > 0
    ensures |lanes| == ls.grid.warp
    ensures var t := LaneTotal(RowTerm(span, logits, v, row), span.blockSize, ls.vec, ls.grid.warps, w, span.Blocks());
            RowLanesHold(lanes, t, ls.RowVecs(), ls.RowsPerIter(), row)
  {
    hide Lanes.Valid, Grid.Valid, Span.Valid, Lanes.RowVecs, Lanes.RowsPerIter, RowTerm, RowLanesHold, LaneTerm;
    LanesShape(ls);
    SpanTokens(span);
    var vecs, rows := ls.RowVecs(), ls.RowsPerIter();
    ghost var t := LaneTotal(RowTerm(span, logits, v, row), span.blockSize, ls.vec, ls.grid.warps, w, span.Blocks());
    var first := row / rows * rows;
    lanes := [];
    NoLanesHold(t, vecs, rows, row);
    while |lanes| < ls.grid.warp
      invariant |lanes| <= ls.grid.warp && RowLanesHold(lanes, t, vecs, rows, row)
    {
      var lane := |lanes|;
      var rowIdx := lane / vecs + first;
      var acc := 0.0;
      if rowIdx < head {
        acc := LaneSum(ls, span, logits, v, w, lane, rowIdx);
      }
      LaneHeld(lanes, t, vecs, rows, row, acc);
      lanes := lanes + [acc];
    }
  }

  lemma LanesShape(ls: Lanes)
    requires ls.Valid()
    ensures ls.grid.Valid() && ls.grid.blockSize > 0 && ls.grid.warp > 0 && ls.grid.warps > 0
    ensures IsPowerOfTwo(ls.grid.warps) && ls.vec > 0
    ensures ls.RowVecs() > 0 && ls.RowsPerIter() > 0 && IsPowerOfTwo(ls.RowVecs())
    ensures ls.RowVecs() * ls.vec == ls.grid.blockSize && ls.RowsPerIter() * ls.RowVecs() == ls.grid.warp
  {
  }

  /** A butterfly over groups of `n` lanes, as the first lane of group `g` sees it. */
  method GroupSum(lanes: seq<real>, g: nat, n: nat) returns (sum: real)
    requires IsPowerOfTwo(n) && |lanes| % n == 0 && g * n + n <= |lanes|
    ensures sum == Sum(n, At(lanes[g * n..g * n + n]))
  {
    PlusLaws();
    hide Laws, Plus;
    var out := lanes;
    ghost var group := lanes[g * n..g * n + n];
    if n > 1 {
      QuotientUnique(g * n, n, g, 0);
      QuotientUnique(n, n, 1, 0);
      ButterflyGroup(Plus(), lanes, g * n, n, n / 2);
      ButterflyTotal(Plus(), group, n / 2);
      out := Butterfly(Plus(), lanes, n / 2, 1);
      assert out[g * n] == out[g * n..g * n + n][0];
    }
    sum := out[g * n];
    TotalIsSum(group);
  }

  // ----- One row over all warps

  /** The warps add up to the span. */
  lemma WarpsAddUp(ls: Lanes, span: Span, logits: seq<real>, v: Values, row: int)
    requires ls.Valid() && span.Valid() && span.blockSize == ls.grid.blockSize
    ensures span.Tokens() >= 0
    ensures var f := RowTerm(span, logits, v, row);
            Sum(ls.grid.warps, StrideSum(ChunkSum(f, span.blockSize), ls.grid.warps, span.Blocks())) ==
            Sum(span.Tokens(), f)
  {
    var f, bs, blocks, warps := RowTerm(span, logits, v, row), span.blockSize, span.Blocks(), ls.grid.warps;
    var g := ChunkSum(f, bs);
    SumStrides(warps, blocks, g);
    forall c | c >= blocks ensures g(c) == 0.0 {
      TimesMonotone(blocks, c, bs);
      SumZero(bs, Chunk(f, bs, c));
    }
    TimesMonotone(1, warps, blocks);
    assert blocks * warps == warps * blocks;
    SumPadded(blocks, blocks * warps, g);
    SumChunks(blocks, bs, f);
    SpanTokens(span);
    SumPadded(span.Tokens(), blocks * bs, f);
  }

  lemma SpanTokens(span: Span)
    requires span.Valid()
    ensures span.blockSize > 0 && span.Blocks() > 0 && 0 < span.Tokens() <= span.Blocks() * span.blockSize
  {
    ContextBlocks(span.context, span.blockSize);
    TimesMonotone(span.startBlock, CeilDiv(span.context, span.blockSize) - 1, span.blockSize);
    TimesAtLeast(span.Blocks(), span.blockSize);
  }

  /** A row of the output: the logits-weighted sum of the row's values over the span's tokens. */
  method RowOutput(ls: Lanes, span: Span, logits: seq<real>, v: Values, head: nat, row: nat) returns (out: real)
    requires ls.Valid() && span.Valid() && span.blockSize == ls.grid.blockSize && row < head
    requires |logits| >= span.Blocks() * span.blockSize
    ensures span.Tokens() >= 0 && out == Sum(span.Tokens(), RowTerm(span, logits, v, row))
  {
    hide Lanes.Valid, Grid.Valid, Span.Valid, Lanes.RowVecs, Lanes.RowsPerIter, RowTerm, ChunkSum, Laws, Plus, Sum,
         Total, Span.Tokens, Span.Blocks;
    LanesShape(ls);
    SpanTokens(span);
    var warps := ls.grid.warps;
    var accs := new real[warps];
    ghost var g := StrideSum(ChunkSum(RowTerm(span, logits, v, row), span.blockSize), warps, span.Blocks());
    var w := 0;
    while w < warps
      invariant w <= warps && (forall k :: 0 <= k < w ==> accs[k] == g(k))
    {
      accs[w] := WarpRow(ls, span, logits, v, head, w, row);
      w := w + 1;
    }
    ghost var sums := accs[..];
    PlusLaws();
    CrossWarpReduce(Plus(), accs);
    out := accs[0];
    TotalIsSum(sums);
    SumCongruence(warps, At(sums), g);
    WarpsAddUp(ls, span, logits, v, row);
  }

  // ----- One span

  /** The row's value for token `t` of the sequence. */
  function ValueAt(v: Values, bs: nat, row: int, t: int): real
    requires bs > 0
  {
    v(t / bs, row, t % bs)
  }

  function RowValues(span: Span, v: Values, row: int): seq<real>
    requires span.blockSize > 0 && span.Tokens() >= 0
  {
    seq(span.Tokens(), t => ValueAt(v, span.blockSize, row, span.StartToken() + t))
  }

  lemma {:induction false} SumIsExpSum(exp: real -> real, xs: seq<real>, m: real, g: Term)
    requires forall i :: 0 <= i < |xs| ==> g(i) == exp(xs[i] - m)
    ensures Sum(|xs|, g) == ExpSum(exp, xs, m)
    decreases |xs|
  {
    if xs != [] {
      SumIsExpSum(exp, xs[..|xs| - 1], m, g);
    }
  }

  /** A token's contribution with its normalised exponential. */
  function Share(exp: real -> real, m: real, inv: real, x: real, value: real): real {
    exp(x - m) * inv * value
  }

  lemma {:induction false} SumIsWeightedSum(exp: real -> real, xs: seq<real>, vs: seq<real>, m: real, inv: real,
                                            g: Term)
    requires |xs| == |vs| && (forall i :: 0 <= i < |xs| ==> g(i) == Share(exp, m, inv, xs[i], vs[i]))
    ensures Sum(|xs|, g) == WeightedSum(exp, xs, vs, m) * inv
    decreases |xs|
  {
    hide Share;
    if xs != [] {
      var n := |xs| - 1;
      SumIsWeightedSum(exp, xs[..n], vs[..n], m, inv, g);
      ShareAdds(exp, WeightedSum(exp, xs[..n], vs[..n], m), m, inv, xs[n], vs[n]);
    }
  }

  lemma ShareAdds(exp: real -> real, sum: real, m: real, inv: real, x: real, value: real)
    ensures sum * inv + Share(exp, m, inv, x, value) == (sum + exp(x - m) * value) * inv
  {
    Swap(exp(x - m), inv, value);
    Distribute(sum, exp(x - m) * value, inv);
  }

  /** After the first pass the cells of the context's tokens hold the scores. */
  lemma CellsHoldScores(span: Span, qk: Score, before: seq<real>, now: seq<real>)
    requires span.Valid() && Written(span, qk, before, now, SpanCells(span)) && |now| >= Cells(span)
    ensures 0 < span.Tokens() <= Cells(span)
    ensures forall t :: 0 <= t < span.Tokens() ==> now[t] == Scores(span, qk)[t]
  {
    SpanTokens(span);
    forall t | 0 <= t < span.Tokens() ensures now[t] == Scores(span, qk)[t] {
      assert InCells(span, t);
      assert InContext(span, t);
      MaskedIff(span, t);
    }
  }

  lemma ValueHere(v: Values, bs: nat, start: nat, row: int, t: nat)
    requires bs > 0
    ensures ValueAt(v, bs, row, start * bs + t) == v(start + t / bs, row, t % bs)
  {
    AddMultiple(t, bs, start);
  }

  /** The row's terms are the cells times the row's values. */
  lemma RowTermAt(span: Span, v: Values, row: int, cells: seq<real>, t: nat)
    requires span.Valid() && t < span.Tokens() <= |cells|
    ensures RowTerm(span, cells, v, row)(t) == cells[t] * RowValues(span, v, row)[t]
  {
    hide ValueAt, Span.EndToken;
    ValueHere(v, span.blockSize, span.startBlock, row, t);
  }

  lemma RowIsWeightedSum(exp: real -> real, span: Span, v: Values, row: int, xs: seq<real>, m: real, inv: real,
                         cells: seq<real>)
    requires span.Valid() && 0 <= |xs| == span.Tokens() <= |cells|
    requires forall t :: 0 <= t < |xs| ==> cells[t] == exp(xs[t] - m) * inv
    ensures Sum(span.Tokens(), RowTerm(span, cells, v, row)) == WeightedSum(exp, xs, RowValues(span, v, row), m) * inv
  {
    hide RowTerm, WeightedSum, Span.Tokens;
    var vs := RowValues(span, v, row);
    forall t | 0 <= t < |xs| ensures RowTerm(span, cells, v, row)(t) == Share(exp, m, inv, xs[t], vs[t]) {
      RowTermAt(span, v, row, cells, t);
    }
    SumIsWeightedSum(exp, xs, vs, m, inv, RowTerm(span, cells, v, row));
  }

  /** The kernel for one span: its maximum, its sum of exponentials and its normalised row. */
  method PagedAttention(exp: real -> real, eps: real, ls: Lanes, span: Span, qk: Score, v: Values, floor: real,
                        head: nat, row: nat, logits: array<real>) returns (r: Partial)
    requires IsExp(exp) && eps >= 0.0 && row < head
    requires ls.Valid() && Powers(ls.grid) && Fits(ls.grid, span) && logits.Length >= Cells(span)
    requires span.Tokens() >= 0 && (forall x :: x in Scores(span, qk) ==> floor <= x)
    modifies logits
    ensures Part(Scores(span, qk), RowValues(span, v, row)).Valid()
    ensures r == Attend(exp, eps, Part(Scores(span, qk), RowValues(span, v, row)))
  {
    hide IsExp, ExpSum, WeightedSum, Max, Written, MaxOf, Lanes.Valid, Span.Valid, RowTerm, SpanCells, Span.Tokens;
    ghost var xs, vs := Scores(span, qk), RowValues(span, v, row);
    var qkMax := KeySpan(ls.grid, span, qk, floor, logits);
    CellsHoldScores(span, qk, old(logits[..]), logits[..]);
    KeptMaxIsMax(span, qk, floor, qkMax);
    var expSum := ExpPass(exp, span.Tokens(), qkMax, ls.grid, xs, logits);
    MaxIsMember(xs);
    ExpSumAtLeastOne(exp, xs, qkMax);
    var inv := 1.0 / (expSum + eps);
    ScalePass(exp, span.Tokens(), qkMax, inv, ls.grid, xs, logits);
    var out := RowOutput(ls, span, logits[..], v, head, row);
    RowIsWeightedSum(exp, span, v, row, xs, qkMax, inv, logits[..]);
    InverseIsDivision(WeightedSum(exp, xs, vs, qkMax), expSum + eps);
    r := Partial(qkMax, expSum, out);
  }

  /** The normalisation of the first `n` exponentials, in place. */
  method ScalePass(exp: real -> real, n: nat, m: real, inv: real, grid: Grid, ghost xs: seq<real>, logits: array<real>)
    requires Powers(grid) && n == |xs| <= logits.Length && (forall t :: 0 <= t < n ==> logits[t] == exp(xs[t] - m))
    modifies logits
    ensures forall t :: 0 <= t < n ==> logits[t] == exp(xs[t] - m) * inv
  {
    ThreadsPositive(grid.warps, grid.warp);
    var f := (i: int, x: real) => x * inv;
    assert forall i, x :: f(i, x) == x * inv;
    var _ := Pass(f, n, grid.warps * grid.warp, logits);
  }

  /** The exponentials of the first `n` logits, in place, and their sum. */
  method ExpPass(exp: real -> real, n: nat, m: real, grid: Grid, ghost xs: seq<real>, logits: array<real>)
    returns (expSum: real)
    requires Powers(grid) && n == |xs| <= logits.Length && (forall t :: 0 <= t < n ==> logits[t] == xs[t])
    modifies logits
    ensures forall t :: 0 <= t < n ==> logits[t] == exp(xs[t] - m)
    ensures expSum == ExpSum(exp, xs, m)
  {
    var f := (i: int, x: real) => exp(x - m);
    ghost var cells := logits[..];
    ThreadsPositive(grid.warps, grid.warp);
    var sums := Pass(f, n, grid.warps * grid.warp, logits);
    expSum := BlockSum(sums, grid.warp, grid.warps);
    SumIsExpSum(exp, xs, m, Mapped(f, cells, n));
  }

  lemma ThreadsPositive(warps: nat, warp: nat)
    requires warps > 0 && warp > 0
    ensures warps * warp > 0
  {
  }
}
