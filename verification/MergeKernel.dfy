/**
 `paged_attention_v2_reduce_kernel` (kernels/attention_kernel.cu) for one element of the output: strided loops over the
 partitions, the maximum and the sum over the thread block, and the loop that adds up the partitions' outputs.
 */
module MergeKernel {
  import opened Arithmetic
  import opened Reductions
  import opened Sums
  import opened Tiling
  import opened Attention
  import opened KeyPass
  import opened ValuePass
  import opened AttentionKernel

  // ----- The maximum

  /** The maximum over a thread's stride. */
  method StrideMax(xs: seq<real>, floor: real, threads: nat, id: nat) returns (m: real)
    requires id < threads
    ensures m >= floor && (m == floor || m in xs)
    ensures forall i :: 0 <= i < |xs| && i % threads == id ==> xs[i] <= m
  {
    m := floor;
    var i := id;
    QuotientUnique(id, threads, 0, id);
    BelowFirst(threads, id);
    while i < |xs|
      invariant i % threads == id && m >= floor && (m == floor || m in xs)
      invariant forall k :: 0 <= k < |xs| && k < i && k % threads == id ==> xs[k] <= m
      decreases |xs| - i
    {
      if xs[i] > m {
        m := xs[i];
      }
      NextInStride(threads, id, i);
      i := i + threads;
    }
  }

  lemma BelowFirst(threads: nat, id: nat)
    requires id < threads
    ensures forall k: nat :: k < id ==> k % threads != id
  {
    forall k: nat | k < id ensures k % threads != id {
      RemainderAtMost(k, threads);
    }
  }

  lemma NextInStride(threads: nat, id: nat, i: nat)
    requires id < threads && i % threads == id
    ensures (i + threads) % threads == id
    ensures forall k: nat :: i < k < i + threads ==> k % threads != id
  {
    AddMultiple(i, threads, 1);
    forall k: nat | i < k < i + threads ensures k % threads != id {
      if k % threads == id {
        SameRemainder(i, k, threads);
      }
    }
  }

  /**
   The maximum over all threads: butterflies in the warps, then over the warps' results with the floor beside them.
   */
  method MergeMax(xs: seq<real>, floor: real, warp: nat, warps: nat) returns (m: real)
    requires warp > 0 && warp % 2 == 0 && IsPowerOfTwo(warp / 2) && IsPowerOfTwo(warps) && warps <= warp
    requires xs != [] && (forall x :: x in xs ==> floor <= x)
    ensures m == Max(xs)
  {
    ThreadsPositive(warps, warp);
    var maxes := ThreadMaxes(xs, floor, warps * warp);
    m := BlockMax(maxes, floor, warp, warps);
    StridedMax(maxes, 0, 1);
    forall i | 0 <= i < |xs| ensures xs[i] <= m {
      assert maxes[0 + i % (warps * warp) * 1] <= m;
    }
    assert forall i :: 0 <= i < |xs| ==> xs[i] in xs;
    MaxUnique(xs, m, floor);
  }

  /** The same over one value per thread. */
  method BlockMax(maxes: seq<real>, floor: real, warp: nat, warps: nat) returns (m: real)
    requires warp > 0 && warp % 2 == 0 && IsPowerOfTwo(warp / 2) && IsPowerOfTwo(warps) && warps <= warp
    requires |maxes| == warps * warp
    ensures maxes != [] && m == Total(MaxOp(), maxes)
  {
    MaxLaws();
    hide Laws, MaxOp, Flat;
    FlatWarps(maxes, warp, warps);
    WarpShapes(maxes, warp, warps);
    var ws := Warps(maxes, warp, warps);
    hide Warps;
    var red := [];
    assert IsPowerOfTwo(1);
    while |red| < warps
      invariant |red| <= warps && (forall w :: 0 <= w < |red| ==> red[w] == Total(MaxOp(), ws[w]))
    {
      var r := LeaderMax(ws[|red|], 1);
      red := red + [r];
    }
    assert red == WarpTotals(MaxOp(), ws);
    TotalOfTotals(MaxOp(), ws);
    m := WarpResult(MaxOp(), red, seq(warp, _ => floor));
  }

  lemma MaxUnique(xs: seq<real>, m: real, floor: real)
    requires xs != [] && (forall i :: 0 <= i < |xs| ==> floor <= xs[i] <= m) && (m == floor || m in xs)
    ensures m == Max(xs)
  {
    MaxIsMember(xs);
    assert xs[0] in xs;
  }

  method ThreadMaxes(xs: seq<real>, floor: real, threads: nat) returns (maxes: seq<real>)
    requires threads > 0
    ensures |maxes| == threads && (forall m :: m in maxes ==> m == floor || m in xs)
    ensures forall i :: 0 <= i < |xs| ==> xs[i] <= maxes[i % threads]
  {
    maxes := [];
    while |maxes| < threads
      invariant |maxes| <= threads && (forall m :: m in maxes ==> m == floor || m in xs)
      invariant forall i :: 0 <= i < |xs| && i % threads < |maxes| ==> xs[i] <= maxes[i % threads]
    {
      var m := StrideMax(xs, floor, threads, |maxes|);
      maxes := maxes + [m];
    }
  }

  // ----- The sum

  /** A partition's sum relative to the common maximum. */
  function Weight(exp: real -> real, r: Partial, m: real): real {
    r.expSum * exp(r.maxLogit - m)
  }

  lemma {:induction false} SumIsRescaledSum(exp: real -> real, rs: seq<Partial>, m: real, g: Term)
    requires forall i :: 0 <= i < |rs| ==> g(i) == Weight(exp, rs[i], m)
    ensures Sum(|rs|, g) == RescaledSum(exp, rs, m)
    decreases |rs|
  {
    if rs != [] {
      SumIsRescaledSum(exp, rs[..|rs| - 1], m, g);
    }
  }

  function Rescaled(exp: real -> real, rs: seq<Partial>, m: real): (int, real) -> real {
    (i, _) => if 0 <= i < |rs| then Weight(exp, rs[i], m) else 0.0
  }

  /** The rescaled sums in shared memory and their total. */
  method MergeSums(exp: real -> real, rs: seq<Partial>, m: real, grid: Grid, shared: array<real>) returns (global: real)
    requires Powers(grid) && shared.Length >= |rs|
    modifies shared
    ensures forall i :: 0 <= i < |rs| ==> shared[i] == Weight(exp, rs[i], m)
    ensures global == RescaledSum(exp, rs, m)
  {
    hide Weight, RescaledSum;
    var f := Rescaled(exp, rs, m);
    ghost var cells := shared[..];
    ThreadsPositive(grid.warps, grid.warp);
    var sums := Pass(f, |rs|, grid.warps * grid.warp, shared);
    global := BlockSum(sums, grid.warp, grid.warps);
    SumIsRescaledSum(exp, rs, m, Mapped(f, cells, |rs|));
  }

  /** The merging kernel: a single partition is passed through. */
  method MergePartitions(exp: real -> real, eps: real, grid: Grid, rs: seq<Partial>, floor: real, shared: array<real>)
    returns (out: real)
    requires IsExp(exp) && rs != [] && eps >= 0.0 && Powers(grid) && shared.Length >= |rs|
    requires forall r :: r in rs ==> r.expSum > 0.0 && floor <= r.maxLogit
    modifies shared
    ensures out == Merge(exp, eps, rs)
  {
    hide IsExp, RescaledSum, RescaledOut, Max;
    if |rs| == 1 {
      return rs[0].out;
    }
    var m := MergeMax(MaxLogits(rs), floor, grid.warp, grid.warps);
    var global := MergeSums(exp, rs, m, grid, shared);
    RescaledSumPositive(exp, rs, m);
    out := GatherOut(exp, rs, m, shared[..|rs|], 1.0 / (global + eps));
    InverseIsDivision(RescaledOut(exp, rs, m), global + eps);
  }
}
