/**
 Attention over a whole context in two kernels: `paged_attention_v2_kernel` on every partition, then
 `paged_attention_v2_reduce_kernel` (kernels/attention_kernel.cu). The result for a row is the softmax over the context.
 */
module PartitionedAttention {
  import opened Arithmetic
  import opened Tiling
  import opened Attention
  import opened KeyPass
  import opened ValuePass
  import opened AttentionKernel
  import opened MergeKernel

  /** Scores and values of the first `n` tokens. */
  function Prefix(qk: Score, v: Values, bs: nat, row: int, n: nat): Part
    requires bs > 0
  {
    Part(seq(n, t => qk(t)), seq(n, t => ValueAt(v, bs, row, t)))
  }

  function SpanPart(span: Span, qk: Score, v: Values, row: int): Part
    requires span.blockSize > 0 && span.Tokens() >= 0
  {
    Part(Scores(span, qk), RowValues(span, v, row))
  }

  /** Tokens before partition `p`, cut at the context's end. */
  function Before(p: nat, size: nat, context: nat): nat {
    if p * size < context then p * size else context
  }

  /** A partition is a valid span that fits the shared memory, and continues the tokens before it. */
  lemma PartitionContinues(p: nat, size: nat, bs: nat, context: nat, qk: Score, v: Values, row: int)
    requires bs > 0 && size > 0 && size % bs == 0 && p * size < context
    ensures Partition(p, size, bs, context).Some?
    ensures var span := Partition(p, size, bs, context).value;
            && span.Valid() && span.blockSize == bs && span.context == context && Cells(span) <= size
            && span.Tokens() > 0
            && (forall x :: x in Scores(span, qk) ==> exists t :: 0 <= t < context && x == qk(t))
            && (forall x :: x in RowValues(span, v, row) ==>
                  exists t :: 0 <= t < context && x == ValueAt(v, bs, row, t))
            && (var a, b, c := Prefix(qk, v, bs, row, Before(p, size, context)), SpanPart(span, qk, v, row),
                               Prefix(qk, v, bs, row, Before(p + 1, size, context));
                c == Part(a.xs + b.xs, a.vs + b.vs))
  {
    var span := Partition(p, size, bs, context).value;
    PartitionTokens(p, size, bs, context);
    assert (p + 1) * size == p * size + size;
    CellsFit(p, size, bs, context);
    hide Partition, ValueAt;
    var lo, hi := Before(p, size, context), Before(p + 1, size, context);
    assert span.StartToken() == lo && span.EndToken() == hi;
    hide Span.StartToken, Span.EndToken;
    var a, b, c := Prefix(qk, v, bs, row, lo), SpanPart(span, qk, v, row), Prefix(qk, v, bs, row, hi);
    assert c.xs == a.xs + b.xs;
    assert c.vs == a.vs + b.vs;
  }

  lemma CellsFit(p: nat, size: nat, bs: nat, context: nat)
    requires bs > 0 && size > 0 && size % bs == 0 && p * size < context
    ensures var span := Partition(p, size, bs, context).value;
            span.blockSize == bs && span.context == context && span.Blocks() * bs <= size
  {
    var span := Partition(p, size, bs, context).value;
    TimesMonotone(span.Blocks(), size / bs, bs);
  }

  lemma PushPart(exp: real -> real, eps: real, parts: seq<Part>, q: Part)
    requires AllValid(parts) && q.Valid()
    ensures AllValid(parts + [q])
    ensures AttendAll(exp, eps, parts + [q]) == AttendAll(exp, eps, parts) + [Attend(exp, eps, q)]
    ensures Whole(parts + [q]) == Part(Whole(parts).xs + q.xs, Whole(parts).vs + q.vs)
    ensures NonnegativeValues(parts) && Nonnegative(q.vs) ==> NonnegativeValues(parts + [q])
  {
    hide Attend;
    assert (parts + [q])[..|parts|] == parts;
  }

  /** The output `out` for a row against the softmax over the context. */
  ghost predicate Approximates(exp: real -> real, eps: real, context: Part, out: real)
    requires |context.xs| == |context.vs|
  {
    var exact := Softmax(exp, context.xs, context.vs);
    && (eps == 0.0 ==> out == exact)
    && (eps >= 0.0 && Nonnegative(context.vs) ==> exact / ((1.0 + eps) * (1.0 + eps)) <= out <= exact)
  }

  lemma MergeApproximates(exp: real -> real, eps: real, parts: seq<Part>)
    requires IsExp(exp) && eps >= 0.0 && AllValid(parts) && parts != []
    requires Nonnegative(Whole(parts).vs) ==> NonnegativeValues(parts)
    ensures |Whole(parts).xs| == |Whole(parts).vs|
    ensures Approximates(exp, eps, Whole(parts), Merge(exp, eps, AttendAll(exp, eps, parts)))
  {
    hide IsExp, Softmax, Merge, AttendAll, Whole, AllValid, NonnegativeValues;
    WholeValid(parts);
    if eps == 0.0 {
      MergeExact(exp, parts);
    }
    if Nonnegative(Whole(parts).vs) {
      MergeBounds(exp, eps, parts);
    }
  }

  lemma SumsPositive(exp: real -> real, eps: real, q: Part)
    requires IsExp(exp) && q.Valid()
    ensures Attend(exp, eps, q).expSum > 0.0 && Attend(exp, eps, q).maxLogit in q.xs
  {
    hide IsExp, Max, ExpSum;
    MaxIsMember(q.xs);
    ExpSumAtLeastOne(exp, q.xs, Max(q.xs));
  }

  /**
   Both kernels for one row: exact when nothing is added to the sums, and within the square of `1 + eps` for nonnegative
   values. Partitions beyond the context do nothing, so the loop stops at its end.
   */
  method AttendContext(exp: real -> real, eps: real, ls: Lanes, size: nat, context: nat, qk: Score, v: Values,
                       floor: real, head: nat, row: nat, logits: array<real>) returns (out: real)
    requires IsExp(exp) && eps >= 0.0 && row < head && ls.Valid() && Powers(ls.grid)
    requires context > 0 && size > 0 && size % ls.grid.blockSize == 0 && logits.Length >= size
    requires forall t :: 0 <= t < context ==> floor <= qk(t)
    modifies logits
    ensures Approximates(exp, eps, Prefix(qk, v, ls.grid.blockSize, row, context), out)
  {
    hide IsExp, Attend, Whole, AttendAll, Lanes.Valid, Grid.Valid, Span.Valid, Powers,
         NonnegativeValues, Prefix, Softmax, Merge, Partition, Cells;
    LanesShape(ls);
    ghost var parts: seq<Part> := [];
    ghost var whole := Prefix(qk, v, ls.grid.blockSize, row, context);
    var rs: seq<Partial> := [];
    var p := 0;
    Start(exp, eps, qk, v, ls.grid.blockSize, row);
    while p * size < context
      invariant AllValid(parts) && rs == AttendAll(exp, eps, parts) && |parts| == |rs| == p
      invariant Whole(parts) == Prefix(qk, v, ls.grid.blockSize, row, Before(p, size, context))
      invariant Nonnegative(whole.vs) ==> NonnegativeValues(parts)
      invariant forall r :: r in rs ==> r.expSum > 0.0 && floor <= r.maxLogit
      decreases context - p * size
    {
      PartitionContinues(p, size, ls.grid.blockSize, context, qk, v, row);
      var span := Partition(p, size, ls.grid.blockSize, context).value;
      ghost var q := SpanPart(span, qk, v, row);
      var r := PagedAttention(exp, eps, ls, span, qk, v, floor, head, row, logits);
      PushPart(exp, eps, parts, q);
      SumsPositive(exp, eps, q);
      WholeValues(qk, v, ls.grid.blockSize, row, context, q.vs);
      parts := parts + [q];
      rs := rs + [r];
      assert (p + 1) * size == p * size + size;
      p := p + 1;
    }
    assert p != 0;
    var shared := new real[|rs|];
    out := MergePartitions(exp, eps, ls.grid, rs, floor, shared);
    MergeApproximates(exp, eps, parts);
  }

  lemma Start(exp: real -> real, eps: real, qk: Score, v: Values, bs: nat, row: int)
    requires bs > 0
    ensures AttendAll(exp, eps, []) == [] && Whole([]) == Prefix(qk, v, bs, row, 0) && NonnegativeValues([])
  {
  }

  lemma WholeValues(qk: Score, v: Values, bs: nat, row: int, context: nat, vs: seq<real>)
    requires bs > 0 && (forall x :: x in vs ==> exists t :: 0 <= t < context && x == ValueAt(v, bs, row, t))
    ensures Nonnegative(Prefix(qk, v, bs, row, context).vs) ==> Nonnegative(vs)
  {
    var whole := Prefix(qk, v, bs, row, context).vs;
    forall x | x in vs ensures x in whole {
      var t :| 0 <= t < context && x == ValueAt(v, bs, row, t);
      assert whole[t] == x;
    }
  }
}
