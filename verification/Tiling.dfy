/**
 How kernels/attention_kernel.cu divides the context: into partitions of blocks, a partition's blocks over the warps,
 and a block's tokens over the thread groups of a warp.
 */
module Tiling {
  import opened Outcomes
  import opened Arithmetic

  // ----- Partitions

  /** The blocks and tokens one thread block works on. */
  datatype Span = Span(startBlock: nat, endBlock: nat, blockSize: nat, context: nat) {
    predicate Valid() {
      && blockSize > 0 && context > 0
      && startBlock < endBlock <= CeilDiv(context, blockSize)
    }

    function Blocks(): int {
      endBlock - startBlock
    }

    function StartToken(): int {
      startBlock * blockSize
    }

    function EndToken(): int {
      var end := StartToken() + Blocks() * blockSize;
      if end < context then end else context
    }

    function Tokens(): int {
      EndToken() - StartToken()
    }
  }

  /** Partition `p`, each `size` tokens; `None` where the thread block returns at once. */
  function Partition(p: nat, size: nat, blockSize: nat, context: nat): Option<Span>
    requires blockSize > 0
  {
    if p * size >= context then None
    else
      var per := size / blockSize;
      var blocks := CeilDiv(context, blockSize);
      Some(Span(p * per, if p * per + per < blocks then p * per + per else blocks, blockSize, context))
  }

  /** The whole context as one span: the kernel without partitioning. */
  function Unpartitioned(blockSize: nat, context: nat): Span
    requires blockSize > 0
  {
    Span(0, CeilDiv(context, blockSize), blockSize, context)
  }

  /** The blocks of a context hold it, and their last one is not empty. */
  lemma ContextBlocks(context: nat, blockSize: nat)
    requires blockSize > 0 && context > 0
    ensures var blocks := CeilDiv(context, blockSize);
            blocks > 0 && (blocks - 1) * blockSize < context <= blocks * blockSize
  {
    CeilStep(context, blockSize);
    var q := context / blockSize;
    assert context == q * blockSize + context % blockSize;
    assert (q + 1) * blockSize == q * blockSize + blockSize;
    assert (q - 1) * blockSize == q * blockSize - blockSize;
  }

  lemma UnpartitionedCovers(blockSize: nat, context: nat)
    requires blockSize > 0 && context > 0
    ensures var s := Unpartitioned(blockSize, context); s.Valid() && s.StartToken() == 0 && s.EndToken() == context
  {
    ContextBlocks(context, blockSize);
  }

  /**
   When the block size divides the partition size, a partition is a stretch of `size` tokens cut at the context's end.
   */
  lemma PartitionTokens(p: nat, size: nat, blockSize: nat, context: nat)
    requires blockSize > 0 && size > 0 && size % blockSize == 0 && p * size < context
    ensures var s := Partition(p, size, blockSize, context).value;
            && s.Valid() && s.StartToken() == p * size
            && s.EndToken() == if p * size + size < context then p * size + size else context
  {
    var per := size / blockSize;
    assert size == per * blockSize;
    Scaled(p, per, blockSize);
    ContextBlocks(context, blockSize);
    CutAtEnd(p * per, per, CeilDiv(context, blockSize), blockSize, context);
  }

  /** Cutting a range of blocks at the context's last block cuts its tokens at the context's end. */
  lemma CutAtEnd(start: nat, per: nat, blocks: nat, blockSize: nat, context: nat)
    requires per * blockSize > 0 && start * blockSize < context
    requires (blocks - 1) * blockSize < context <= blocks * blockSize
    ensures var end := if start + per < blocks then start + per else blocks;
            && start < end
            && (var cut := start * blockSize + (end - start) * blockSize; if cut < context then cut else context)
               == (var whole := start * blockSize + per * blockSize; if whole < context then whole else context)
  {
    assert start < blocks by {
      if start >= blocks {
        TimesMonotone(blocks, start, blockSize);
      }
    }
    assert per > 0;
    if start + per >= blocks {
      TimesMonotone(blocks, start + per, blockSize);
      assert start * blockSize + (blocks - start) * blockSize == blocks * blockSize;
    }
  }

  lemma Scaled(p: nat, per: nat, blockSize: nat)
    ensures p * (per * blockSize) == (p * per) * blockSize
    ensures (p * per + per) * blockSize == (p * per) * blockSize + per * blockSize
  {
  }

  ghost predicate Holds(p: nat, size: nat, blockSize: nat, context: nat, t: nat)
    requires blockSize > 0
  {
    var s := Partition(p, size, blockSize, context);
    s.Some? && s.value.StartToken() <= t < s.value.EndToken()
  }

  /**
   The partitions tile the context: every token lies in exactly one, and that one is among those launched for any
   context at least as long.
   */
  lemma PartitionsTile(size: nat, blockSize: nat, context: nat, longest: nat, t: nat, p: nat)
    requires blockSize > 0 && size > 0 && size % blockSize == 0 && context <= longest
    ensures Holds(p, size, blockSize, context, t) <==> t < context && p == t / size
    ensures t < context ==> t / size < CeilDiv(longest, size)
  {
    hide CeilDiv, Partition;
    HoldsStretch(size, blockSize, context, t, p);
    StretchOf(t, p, size);
    if t < context {
      Launched(t, longest, size);
    }
  }

  lemma HoldsStretch(size: nat, blockSize: nat, context: nat, t: nat, p: nat)
    requires blockSize > 0 && size > 0 && size % blockSize == 0
    ensures Holds(p, size, blockSize, context, t) <==> p * size <= t < p * size + size && t < context
  {
    if p * size < context {
      hide Partition, CeilDiv;
      PartitionTokens(p, size, blockSize, context);
      IsSome(p, size, blockSize, context);
    }
  }

  lemma IsSome(p: nat, size: nat, blockSize: nat, context: nat)
    requires blockSize > 0 && p * size < context
    ensures Partition(p, size, blockSize, context).Some?
  {
  }

  lemma StretchOf(t: nat, p: nat, size: nat)
    requires size > 0
    ensures p * size <= t < p * size + size <==> p == t / size
  {
    assert t == t / size * size + t % size;
    if p * size <= t < p * size + size {
      QuotientUnique(t, size, p, t - p * size);
    }
  }

  lemma Launched(t: nat, longest: nat, size: nat)
    requires size > 0 && t < longest
    ensures t / size < CeilDiv(longest, size)
  {
    ContextBlocks(longest, size);
    QuotientBelow(t, size, CeilDiv(longest, size));
  }

  /**
   Were the block size no divisor, tokens would be lost: with blocks of 3 and partitions of 4, token 3 of 4 is in none.
   */
  lemma UndividedPartitionLosesToken(p: nat)
    ensures !Holds(p, 4, 3, 4, 3)
  {
  }

  // ----- Thread groups

  /** `WARP_SIZE` and `NUM_WARPS` with the block size; one of the warp and the block divides the other. */
  datatype Grid = Grid(blockSize: nat, warp: nat, warps: nat) {
    predicate Valid() {
      && blockSize > 0 && warp > 0 && warps > 0
      && (if blockSize <= warp then warp % blockSize == 0 else blockSize % warp == 0)
    }

    /** `THREAD_GROUP_SIZE`. */
    function GroupSize(): nat
      requires blockSize > 0
    {
      var g := warp / blockSize;
      if g > 1 then g else 1
    }

    /** Thread groups in a warp. */
    function Groups(): nat
      requires blockSize > 0
    {
      warp / GroupSize()
    }

    /** `NUM_TOKENS_PER_THREAD_GROUP`. */
    function Turns(): nat
      requires warp > 0
    {
      CeilDiv(blockSize, warp)
    }

    /** The offset in the block of the key that group `g` of warp `w` takes in turn `i`. */
    function Offset(w: nat, g: nat, i: nat): nat
      requires blockSize > 0 && warp > 0
    {
      var groupIndex := (w * warp + g * GroupSize()) / GroupSize();
      (groupIndex + i * warp) % blockSize
    }

    /** The group of every warp that takes offset `o`. */
    function GroupOf(o: nat): nat
      requires warp > 0
    {
      if blockSize <= warp then o else o % warp
    }

    /** The turn in which it takes it. */
    function TurnOf(w: nat, o: nat): nat
      requires Valid()
    {
      if blockSize <= warp then 0 else (o / warp - w) % (blockSize / warp)
    }
  }

  lemma GridSmall(grid: Grid)
    requires grid.Valid() && grid.blockSize <= grid.warp
    ensures grid.Groups() == grid.blockSize && grid.Turns() == 1
    ensures grid.warp == grid.blockSize * grid.GroupSize()
  {
    var n := grid.warp / grid.blockSize;
    assert grid.warp == n * grid.blockSize;
    assert n >= 1;
    QuotientUnique(grid.warp, n, grid.blockSize, 0);
    QuotientUnique(grid.blockSize + grid.warp - 1, grid.warp, 1, grid.blockSize - 1);
  }

  lemma GridLarge(grid: Grid)
    requires grid.Valid() && grid.blockSize > grid.warp
    ensures grid.Groups() == grid.warp && grid.GroupSize() == 1 && grid.Turns() == grid.blockSize / grid.warp > 0
    ensures grid.blockSize == grid.Turns() * grid.warp
  {
    QuotientUnique(grid.warp, grid.blockSize, 0, grid.warp);
    CeilStep(grid.blockSize, grid.warp);
    assert grid.warp / 1 == grid.warp;
  }

  /** In every warp, every offset of a block is taken by exactly one group in exactly one turn. */
  lemma OffsetTakenOnce(grid: Grid, w: nat, g: nat, i: nat, o: nat)
    requires grid.Valid() && g < grid.Groups() && i < grid.Turns() && o < grid.blockSize
    ensures grid.Offset(w, g, i) == o <==> g == grid.GroupOf(o) && i == grid.TurnOf(w, o)
    ensures grid.GroupOf(o) < grid.Groups() && grid.TurnOf(w, o) < grid.Turns()
  {
    if grid.blockSize <= grid.warp {
      GridSmall(grid);
      SmallOffset(w, g, grid.blockSize, grid.GroupSize());
    } else {
      GridLarge(grid);
      LargeTakenOnce(w, g, i, grid.warp, grid.Turns(), o);
    }
  }

  lemma SmallOffset(w: nat, g: nat, blockSize: nat, size: nat)
    requires g < blockSize && size > 0
    ensures (w * (blockSize * size) + g * size) / size % blockSize == g
  {
    assert w * (blockSize * size) + g * size == (w * blockSize + g) * size;
    QuotientUnique((w * blockSize + g) * size, size, w * blockSize + g, 0);
    AddMultiple(g, blockSize, w);
    QuotientUnique(g, blockSize, 0, g);
  }

  lemma LargeOffset(w: nat, g: nat, i: nat, warp: nat, turns: nat)
    requires g < warp && turns > 0
    ensures (w * warp + g + i * warp) % (turns * warp) == (w + i) % turns * warp + g
  {
    var r, q := (w + i) % turns, (w + i) / turns;
    assert w + i == q * turns + r;
    assert w * warp + i * warp == (w + i) * warp == q * (turns * warp) + r * warp;
    TimesMonotone(r + 1, turns, warp);
    assert (r + 1) * warp == r * warp + warp;
    QuotientUnique(w * warp + g + i * warp, turns * warp, q, r * warp + g);
  }

  lemma LargeTakenOnce(w: nat, g: nat, i: nat, warp: nat, turns: nat, o: nat)
    requires g < warp && i < turns && o < turns * warp
    ensures (w * warp + g + i * warp) % (turns * warp) == o <==> g == o % warp && i == (o / warp - w) % turns
    ensures o % warp < warp && 0 <= (o / warp - w) % turns < turns
  {
    LargeOffset(w, g, i, warp, turns);
    QuotientBelow(o, warp, turns);
    TurnUnique(w, i, turns, o / warp);
    var c := (w + i) % turns;
    QuotientUnique(c * warp + g, warp, c, g);
    assert o == o / warp * warp + o % warp;
  }

  /** Turn `i` of warp `w` reaches part `c` of the block exactly when `i` is `c - w` around the turns. */
  lemma TurnUnique(w: nat, i: nat, turns: nat, c: nat)
    requires i < turns && c < turns
    ensures (w + i) % turns == c <==> i == (c - w) % turns
  {
    var q := (w + i) / turns;
    var s := (c - w) / turns;
    assert w + i == q * turns + (w + i) % turns;
    assert c - w == s * turns + (c - w) % turns;
    if (w + i) % turns == c {
      assert c - w == -q * turns + i;
      QuotientUnique(c - w, turns, -q, i);
    }
    if i == (c - w) % turns {
      assert w + i == -s * turns + c;
      QuotientUnique(w + i, turns, -s, c);
    }
  }
}
