/**
 The first pass of `paged_attention_kernel` (kernels/attention_kernel.cu): warps take the blocks of a span in turn,
 the thread groups of a warp take the tokens of a block, and the leader of a group writes the logit to shared memory and
 keeps a running maximum. Threads run one after the other here; no two of them write the same cell.
 */
module KeyPass {
  import opened Arithmetic
  import opened Attention
  import opened Reductions
  import opened Tiling

  type Score = int -> real

  ghost predicate Fits(grid: Grid, span: Span) {
    grid.Valid() && span.Valid() && span.blockSize == grid.blockSize
  }

  /** Cells of shared memory that belong to the span. */
  ghost function Cells(span: Span): int {
    span.Blocks() * span.blockSize
  }

  /** What the pass leaves in cell `t`: the score of the token, or zero beyond the context. */
  function Logit(span: Span, qk: Score, t: int): real {
    var token := span.StartToken() + t;
    if token >= span.context then 0.0 else qk(token)
  }

  ghost predicate InCells(span: Span, t: int) {
    0 <= t < Cells(span)
  }

  ghost predicate InContext(span: Span, t: int) {
    0 <= t < span.Tokens()
  }

  /** The block of the span that holds cell `t` is one of warp `w`. */
  ghost predicate OfWarp(grid: Grid, w: int, t: int)
    requires grid.Valid()
  {
    t / grid.blockSize % grid.warps == w
  }

  /** Cell `t` belongs to group `g` of warp `w`. */
  ghost predicate OfGroup(grid: Grid, w: int, g: int, t: int)
    requires grid.Valid() && t >= 0
  {
    OfWarp(grid, w, t) && grid.GroupOf(t % grid.blockSize) == g
  }

  /** The group has written cell `t` when it is at block `c` and turn `i`. */
  ghost predicate Passed(grid: Grid, w: nat, c: int, i: int, t: int)
    requires grid.Valid() && t >= 0
  {
    t / grid.blockSize < c || (t / grid.blockSize == c && grid.TurnOf(w, t % grid.blockSize) < i)
  }

  /** `m` is no less than the floor and the scores of the tokens in `done`, and is the floor or a score of the span. */
  ghost predicate MaxOf(span: Span, qk: Score, floor: real, m: real, done: iset<int>) {
    && m >= floor
    && (forall t :: t in done && InContext(span, t) ==> qk(span.StartToken() + t) <= m)
    && (m == floor || exists t :: InContext(span, t) && m == qk(span.StartToken() + t))
  }

  /** The cells in `done` hold their logits, the others what they held before. */
  ghost predicate Written(span: Span, qk: Score, before: seq<real>, now: seq<real>, done: iset<int>) {
    && |before| == |now|
    && (forall t :: 0 <= t < |now| ==> now[t] == if t in done then Logit(span, qk, t) else before[t])
  }

  ghost function GroupDone(grid: Grid, span: Span, w: nat, g: nat, c: int, i: int): iset<int>
    requires grid.Valid()
  {
    iset t: int | 0 <= t < Cells(span) && OfGroup(grid, w, g, t) && Passed(grid, w, c, i, t)
  }

  ghost function GroupCells(grid: Grid, span: Span, w: nat, g: nat): iset<int>
    requires grid.Valid()
  {
    iset t: int | 0 <= t < Cells(span) && OfGroup(grid, w, g, t)
  }

  // ----- One thread

  /** Block `c`, turn `i` of a group adds exactly the cell it writes. */
  lemma TurnAddsCell(grid: Grid, span: Span, w: nat, g: nat, c: nat, i: nat)
    requires Fits(grid, span) && w < grid.warps && g < grid.Groups() && i < grid.Turns()
    requires c < span.Blocks() && c % grid.warps == w
    ensures var cell := c * grid.blockSize + grid.Offset(w, g, i);
            && 0 <= cell < Cells(span)
            && GroupDone(grid, span, w, g, c, i + 1) == GroupDone(grid, span, w, g, c, i) + iset{cell}
  {
    var bs, o := grid.blockSize, grid.Offset(w, g, i);
    var cell := c * bs + o;
    CellInSpan(c, o, bs, span.Blocks());
    QuotientUnique(cell, bs, c, o);
    OffsetTakenOnce(grid, w, g, i, o);
    forall t: int | 0 <= t < Cells(span)
      ensures t in GroupDone(grid, span, w, g, c, i + 1) <==> t in GroupDone(grid, span, w, g, c, i) || t == cell
    {
      hide Fits, Cells;
      OffsetTakenOnce(grid, w, g, i, t % bs);
      SameCell(t, c, o, bs);
    }
  }

  lemma CellInSpan(c: nat, o: nat, bs: nat, blocks: nat)
    requires c < blocks && o < bs
    ensures 0 <= c * bs + o < blocks * bs
  {
    TimesMonotone(c + 1, blocks, bs);
    assert (c + 1) * bs == c * bs + bs;
  }

  lemma SameCell(t: int, c: int, o: nat, bs: nat)
    requires o < bs
    ensures t == c * bs + o <==> t / bs == c && t % bs == o
  {
    if t == c * bs + o {
      QuotientUnique(t, bs, c, o);
    }
  }

  /** After its last turn the group goes on to the next block of its warp. */
  lemma NextBlock(grid: Grid, span: Span, w: nat, g: nat, c: nat)
    requires Fits(grid, span) && c % grid.warps == w
    ensures GroupDone(grid, span, w, g, c, grid.Turns()) == GroupDone(grid, span, w, g, c + grid.warps, 0)
    ensures (c + grid.warps) % grid.warps == w
  {
    hide Cells, Grid.TurnOf, Grid.GroupOf, Grid.Turns, Passed, OfWarp;
    RoundStep(c, c, grid.warps);
    forall t: int | 0 <= t < Cells(span) && OfGroup(grid, w, g, t)
      ensures Passed(grid, w, c, grid.Turns(), t) <==> Passed(grid, w, c + grid.warps, 0, t)
    {
      PassedRound(grid, w, c, t);
    }
  }

  lemma PassedRound(grid: Grid, w: nat, c: nat, t: nat)
    requires grid.Valid() && c % grid.warps == w && OfWarp(grid, w, t)
    ensures Passed(grid, w, c, grid.Turns(), t) <==> Passed(grid, w, c + grid.warps, 0, t)
  {
    hide Grid.TurnOf, Grid.Turns;
    TurnInRange(grid, w, t % grid.blockSize);
    RoundStep(c, t / grid.blockSize, grid.warps);
  }

  lemma TurnInRange(grid: Grid, w: nat, o: nat)
    requires grid.Valid() && o < grid.blockSize
    ensures grid.TurnOf(w, o) < grid.Turns()
  {
    if grid.blockSize <= grid.warp {
      GridSmall(grid);
    } else {
      GridLarge(grid);
    }
  }

  lemma RoundStep(c: nat, d: nat, warps: nat)
    requires warps > 0 && d % warps == c % warps
    ensures (c + warps) % warps == c % warps
    ensures c <= d < c + warps ==> d == c
  {
    AddMultiple(c, warps, 1);
    if c <= d < c + warps {
      SameRemainder(c, d, warps);
    }
  }

  lemma FirstBlock(grid: Grid, span: Span, w: nat, g: nat)
    requires Fits(grid, span) && w < grid.warps
    ensures w % grid.warps == w && GroupDone(grid, span, w, g, w, 0) == iset{}
  {
    hide Cells, Grid.TurnOf, Grid.GroupOf;
    QuotientUnique(w, grid.warps, 0, w);
    forall t: int | 0 <= t < Cells(span) && OfGroup(grid, w, g, t) ensures !Passed(grid, w, w, 0, t) {
      RemainderAtMost(t / grid.blockSize, grid.warps);
    }
  }

  lemma LastBlock(grid: Grid, span: Span, w: nat, g: nat, c: nat)
    requires Fits(grid, span) && c >= span.Blocks()
    ensures GroupDone(grid, span, w, g, c, 0) == GroupCells(grid, span, w, g)
  {
    forall t: int | 0 <= t < Cells(span) && OfGroup(grid, w, g, t) ensures Passed(grid, w, c, 0, t) {
      QuotientBelow(t, grid.blockSize, span.Blocks());
    }
  }

  /** A token of the span is in the context exactly when the kernel does not mask it. */
  lemma MaskedIff(span: Span, t: int)
    requires span.Valid() && 0 <= t < Cells(span)
    ensures InContext(span, t) <==> span.StartToken() + t < span.context
  {
  }

  lemma MaxStep(span: Span, qk: Score, floor: real, m: real, m': real, done: iset<int>, t: int)
    requires span.Valid() && MaxOf(span, qk, floor, m, done) && 0 <= t < Cells(span)
    requires var token := span.StartToken() + t;
             m' == if token < span.context && qk(token) > m then qk(token) else m
    ensures MaxOf(span, qk, floor, m', done + iset{t})
  {
    hide Cells;
    MaskedIff(span, t);
  }

  /** The leader of group `g` of warp `w`. */
  method KeyThread(grid: Grid, span: Span, qk: Score, floor: real, w: nat, g: nat, logits: array<real>)
    returns (qkMax: real)
    requires Fits(grid, span) && w < grid.warps && g < grid.Groups() && logits.Length >= Cells(span)
    modifies logits
    ensures Written(span, qk, old(logits[..]), logits[..], GroupCells(grid, span, w, g))
    ensures MaxOf(span, qk, floor, qkMax, GroupCells(grid, span, w, g))
  {
    hide MaxOf, Written, GroupDone, GroupCells, Grid.Groups, Cells;
    qkMax := floor;
    var b := span.startBlock + w;
    FirstBlock(grid, span, w, g);
    NothingYet(span, qk, floor, logits[..]);
    while b < span.endBlock
      invariant b >= span.startBlock && (b - span.startBlock) % grid.warps == w
      invariant Written(span, qk, old(logits[..]), logits[..], GroupDone(grid, span, w, g, b - span.startBlock, 0))
      invariant MaxOf(span, qk, floor, qkMax, GroupDone(grid, span, w, g, b - span.startBlock, 0))
    {
      qkMax := KeyBlock(grid, span, qk, floor, w, g, b, qkMax, old(logits[..]), logits);
      NextBlock(grid, span, w, g, b - span.startBlock);
      b := b + grid.warps;
    }
    LastBlock(grid, span, w, g, b - span.startBlock);
  }

  lemma NothingYet(span: Span, qk: Score, floor: real, cells: seq<real>)
    ensures Written(span, qk, cells, cells, iset{}) && MaxOf(span, qk, floor, floor, iset{})
  {
  }

  /** Its turns in block `b`. */
  method KeyBlock(grid: Grid, span: Span, qk: Score, floor: real, w: nat, g: nat, b: nat, qkMax0: real,
                  ghost before: seq<real>, logits: array<real>) returns (qkMax: real)
    requires Fits(grid, span) && w < grid.warps && g < grid.Groups() && logits.Length >= Cells(span)
    requires span.startBlock <= b < span.endBlock && (b - span.startBlock) % grid.warps == w
    requires Written(span, qk, before, logits[..], GroupDone(grid, span, w, g, b - span.startBlock, 0))
    requires MaxOf(span, qk, floor, qkMax0, GroupDone(grid, span, w, g, b - span.startBlock, 0))
    modifies logits
    ensures Written(span, qk, before, logits[..], GroupDone(grid, span, w, g, b - span.startBlock, grid.Turns()))
    ensures MaxOf(span, qk, floor, qkMax, GroupDone(grid, span, w, g, b - span.startBlock, grid.Turns()))
  {
    hide MaxOf, Written, GroupDone, Grid.Offset, Grid.Groups, Cells;
    qkMax := qkMax0;
    var c := b - span.startBlock;
    var i := 0;
    while i < grid.Turns()
      invariant i <= grid.Turns()
      invariant Written(span, qk, before, logits[..], GroupDone(grid, span, w, g, c, i))
      invariant MaxOf(span, qk, floor, qkMax, GroupDone(grid, span, w, g, c, i))
    {
      var offset := grid.Offset(w, g, i);
      var token := b * grid.blockSize + offset;
      TurnAddsCell(grid, span, w, g, c, i);
      var cell := token - span.startBlock * grid.blockSize;
      assert cell == c * grid.blockSize + offset;
      MaxStep(span, qk, floor, qkMax, if token < span.context && qk(token) > qkMax then qk(token) else qkMax,
              GroupDone(grid, span, w, g, c, i), cell);
      WriteStep(span, qk, before, logits[..], GroupDone(grid, span, w, g, c, i), cell);
      var masked := token >= span.context;
      logits[cell] := if masked then 0.0 else qk(token);
      if !masked && qk(token) > qkMax {
        qkMax := qk(token);
      }
      i := i + 1;
    }
  }

  lemma WriteStep(span: Span, qk: Score, before: seq<real>, now: seq<real>, done: iset<int>, t: int)
    requires Written(span, qk, before, now, done) && 0 <= t < |now|
    ensures Written(span, qk, before, now[t := Logit(span, qk, t)], done + iset{t})
  {
  }

  // ----- One warp

  function MaxOp(): Op {
    (a: real, b: real) => if a > b then a else b
  }

  lemma MaxLaws()
    ensures Laws(MaxOp())
  {
  }

  /** A reduction with the maximum is no less than its elements, and one of them. */
  lemma {:induction false} StridedMax(v: seq<real>, r: nat, m: nat)
    requires r < |v| && m > 0
    ensures Strided(MaxOp(), v, r, m) in v
    ensures forall k: nat :: r + k * m < |v| ==> v[r + k * m] <= Strided(MaxOp(), v, r, m)
    decreases |v| - r
  {
    if r + m < |v| {
      StridedMax(v, r + m, m);
    }
    forall k: nat | r + k * m < |v| ensures v[r + k * m] <= Strided(MaxOp(), v, r, m) {
      if k == 0 {
        assert k * m == 0;
      } else {
        assert k * m == (k - 1) * m + m;
        TimesAtLeast(k, m);
        assert r + k * m == (r + m) + (k - 1) * m;
      }
    }
  }

  /** The constants of the reductions are powers of two. */
  ghost predicate Powers(grid: Grid) {
    && grid.Valid() && grid.warp % 2 == 0 && IsPowerOfTwo(grid.warp / 2)
    && IsPowerOfTwo(grid.GroupSize()) && IsPowerOfTwo(grid.warps) && grid.warps <= grid.warp
  }

  ghost function WarpDone(grid: Grid, span: Span, w: nat, g: nat): iset<int>
    requires grid.Valid()
  {
    iset t: int | 0 <= t < Cells(span) && OfWarp(grid, w, t) && grid.GroupOf(t % grid.blockSize) < g
  }

  ghost function WarpCells(grid: Grid, span: Span, w: nat): iset<int>
    requires grid.Valid()
  {
    iset t: int | 0 <= t < Cells(span) && OfWarp(grid, w, t)
  }

  /** The lanes of a warp after `g` groups: the leaders hold their maxima, the others the floor. */
  ghost predicate LanesHold(grid: Grid, span: Span, qk: Score, floor: real, w: nat, g: nat, lanes: seq<real>)
    requires grid.Valid()
  {
    && |lanes| == grid.warp
    && (forall m :: m in lanes ==> MaxOf(span, qk, floor, m, iset{}))
    && (forall k: nat :: k < g && k * grid.GroupSize() < |lanes|
                         ==> MaxOf(span, qk, floor, lanes[k * grid.GroupSize()], GroupCells(grid, span, w, k)))
  }

  lemma WrittenMore(span: Span, qk: Score, before: seq<real>, mid: seq<real>, now: seq<real>, a: iset<int>,
                    b: iset<int>)
    requires Written(span, qk, before, mid, a) && Written(span, qk, mid, now, b)
    ensures Written(span, qk, before, now, a + b)
  {
  }

  lemma MaxOfFewer(span: Span, qk: Score, floor: real, m: real, done: iset<int>)
    requires MaxOf(span, qk, floor, m, done)
    ensures MaxOf(span, qk, floor, m, iset{})
  {
  }

  lemma GroupSizeBounds(grid: Grid)
    requires grid.Valid()
    ensures 0 < grid.GroupSize() <= grid.warp
  {
    if grid.blockSize <= grid.warp {
      GridSmall(grid);
      TimesMonotone(1, grid.blockSize, grid.GroupSize());
    } else {
      GridLarge(grid);
    }
  }

  lemma LeaderLane(grid: Grid, g: nat)
    requires grid.Valid() && g < grid.Groups()
    ensures g * grid.GroupSize() < grid.warp
  {
    var n := grid.GroupSize();
    assert grid.warp == grid.Groups() * n + grid.warp % n;
    TimesMonotone(g + 1, grid.Groups(), n);
    assert (g + 1) * n == g * n + n;
  }

  lemma GroupAdds(grid: Grid, span: Span, w: nat, g: nat)
    requires grid.Valid()
    ensures WarpDone(grid, span, w, g) + GroupCells(grid, span, w, g) == WarpDone(grid, span, w, g + 1)
  {
    hide Grid.GroupOf, Cells;
  }

  lemma WarpEnds(grid: Grid, span: Span, w: nat)
    requires Fits(grid, span)
    ensures WarpDone(grid, span, w, 0) == iset{} && WarpDone(grid, span, w, grid.Groups()) == WarpCells(grid, span, w)
  {
    forall t: int | 0 <= t < Cells(span) ensures 0 <= grid.GroupOf(t % grid.blockSize) < grid.Groups() {
      GroupInRange(grid, t % grid.blockSize);
    }
  }

  lemma GroupInRange(grid: Grid, o: nat)
    requires grid.Valid() && o < grid.blockSize
    ensures grid.GroupOf(o) < grid.Groups()
  {
    if grid.blockSize <= grid.warp {
      GridSmall(grid);
    } else {
      GridLarge(grid);
    }
  }

  lemma LaneHolds(grid: Grid, span: Span, qk: Score, floor: real, w: nat, g: nat, lanes: seq<real>, m: real)
    requires grid.Valid() && g < grid.Groups()
    requires LanesHold(grid, span, qk, floor, w, g, lanes) && MaxOf(span, qk, floor, m, GroupCells(grid, span, w, g))
    ensures g * grid.GroupSize() < grid.warp
    ensures LanesHold(grid, span, qk, floor, w, g + 1, lanes[g * grid.GroupSize() := m])
  {
    hide MaxOf, GroupCells, Grid.GroupSize;
    LeaderLane(grid, g);
    GroupSizeBounds(grid);
    MaxOfFewer(span, qk, floor, m, GroupCells(grid, span, w, g));
    forall k: nat | k < g ensures k * grid.GroupSize() != g * grid.GroupSize() {
      TimesMonotone(k + 1, g, grid.GroupSize());
      assert (k + 1) * grid.GroupSize() == k * grid.GroupSize() + grid.GroupSize();
    }
  }

  /** The maximum over the leaders is the maximum over the cells of the warp. */
  lemma LeadersMax(grid: Grid, span: Span, qk: Score, floor: real, w: nat, lanes: seq<real>)
    requires Fits(grid, span) && LanesHold(grid, span, qk, floor, w, grid.Groups(), lanes)
    ensures 0 < grid.GroupSize() <= |lanes|
    ensures MaxOf(span, qk, floor, Strided(MaxOp(), lanes, 0, grid.GroupSize()), WarpCells(grid, span, w))
  {
    hide Grid.GroupSize, Grid.Groups, Grid.GroupOf, Cells, InContext;
    GroupSizeBounds(grid);
    var m := Strided(MaxOp(), lanes, 0, grid.GroupSize());
    StridedMax(lanes, 0, grid.GroupSize());
    forall t: int | t in WarpCells(grid, span, w) && InContext(span, t) ensures qk(span.StartToken() + t) <= m {
      var g := grid.GroupOf(t % grid.blockSize);
      GroupInRange(grid, t % grid.blockSize);
      LeaderLane(grid, g);
      assert t in GroupCells(grid, span, w, g);
      assert lanes[0 + g * grid.GroupSize()] <= m;
    }
  }

  /** All threads of warp `w`, and the butterfly over its leaders. */
  method KeyWarp(grid: Grid, span: Span, qk: Score, floor: real, w: nat, logits: array<real>) returns (warpMax: real)
    requires Fits(grid, span) && Powers(grid) && w < grid.warps && logits.Length >= Cells(span)
    modifies logits
    ensures Written(span, qk, old(logits[..]), logits[..], WarpCells(grid, span, w))
    ensures MaxOf(span, qk, floor, warpMax, WarpCells(grid, span, w))
  {
    hide MaxOf, Written, GroupCells, WarpDone, WarpCells, Cells, Grid.GroupSize, Grid.Groups;
    var lanes := seq(grid.warp, _ => floor);
    var g := 0;
    NothingYet(span, qk, floor, logits[..]);
    WarpEnds(grid, span, w);
    while g < grid.Groups()
      invariant g <= grid.Groups() && LanesHold(grid, span, qk, floor, w, g, lanes)
      invariant Written(span, qk, old(logits[..]), logits[..], WarpDone(grid, span, w, g))
    {
      ghost var mid := logits[..];
      var m := KeyThread(grid, span, qk, floor, w, g, logits);
      WrittenMore(span, qk, old(logits[..]), mid, logits[..], WarpDone(grid, span, w, g), GroupCells(grid, span, w, g));
      GroupAdds(grid, span, w, g);
      LaneHolds(grid, span, qk, floor, w, g, lanes, m);
      lanes := lanes[g * grid.GroupSize() := m];
      g := g + 1;
    }
    LeadersMax(grid, span, qk, floor, w, lanes);
    warpMax := LeaderMax(lanes, grid.GroupSize());
  }

  /** The butterfly with steps down to the group size, as lane 0 sees it. */
  method LeaderMax(lanes: seq<real>, groupSize: nat) returns (m: real)
    requires |lanes| > 0 && |lanes| % 2 == 0 && IsPowerOfTwo(|lanes| / 2) && IsPowerOfTwo(groupSize)
    requires groupSize <= |lanes|
    ensures m == Strided(MaxOp(), lanes, 0, groupSize)
  {
    MaxLaws();
    hide Laws, MaxOp;
    ButterflyStride(MaxOp(), lanes, |lanes| / 2, groupSize);
    m := Butterfly(MaxOp(), lanes, |lanes| / 2, groupSize)[0];
    QuotientUnique(0, groupSize, 0, 0);
  }

  // ----- All warps

  ghost function SpanDone(grid: Grid, span: Span, w: nat): iset<int>
    requires grid.Valid()
  {
    iset t: int | 0 <= t < Cells(span) && t / grid.blockSize % grid.warps < w
  }

  ghost function SpanCells(span: Span): iset<int> {
    iset t: int | InCells(span, t)
  }

  lemma WarpAdds(grid: Grid, span: Span, w: nat)
    requires grid.Valid()
    ensures SpanDone(grid, span, w) + WarpCells(grid, span, w) == SpanDone(grid, span, w + 1)
  {
    hide Cells;
  }

  lemma SpanEnds(grid: Grid, span: Span)
    requires grid.Valid()
    ensures SpanDone(grid, span, 0) == iset{} && SpanDone(grid, span, grid.warps) == SpanCells(span)
  {
    hide Cells;
  }

  lemma WarpsMax(grid: Grid, span: Span, qk: Score, floor: real, red: seq<real>)
    requires Fits(grid, span) && |red| == grid.warps
    requires forall w :: 0 <= w < |red| ==> MaxOf(span, qk, floor, red[w], WarpCells(grid, span, w))
    ensures MaxOf(span, qk, floor, Total(MaxOp(), red), SpanCells(span))
  {
    hide Cells, InContext;
    var m := Total(MaxOp(), red);
    StridedMax(red, 0, 1);
    forall t: int | t in SpanCells(span) && InContext(span, t) ensures qk(span.StartToken() + t) <= m {
      var w := t / grid.blockSize % grid.warps;
      assert t in WarpCells(grid, span, w);
      assert w * 1 == w;
      assert red[0 + w * 1] <= m;
    }
  }

  /** The whole pass: every cell of the span holds its logit, and the result is the maximum. */
  method KeySpan(grid: Grid, span: Span, qk: Score, floor: real, logits: array<real>) returns (qkMax: real)
    requires Fits(grid, span) && Powers(grid) && logits.Length >= Cells(span)
    modifies logits
    ensures Written(span, qk, old(logits[..]), logits[..], SpanCells(span))
    ensures MaxOf(span, qk, floor, qkMax, SpanCells(span))
    ensures Scored(span, qk, old(logits[..]), logits[..])
  {
    hide MaxOf, Written, WarpCells, SpanDone, SpanCells, Cells, Grid.GroupSize, Scored;
    var red := [];
    NothingYet(span, qk, floor, logits[..]);
    SpanEnds(grid, span);
    while |red| < grid.warps
      invariant |red| <= grid.warps
      invariant forall w :: 0 <= w < |red| ==> MaxOf(span, qk, floor, red[w], WarpCells(grid, span, w))
      invariant Written(span, qk, old(logits[..]), logits[..], SpanDone(grid, span, |red|))
    {
      ghost var mid := logits[..];
      ghost var w := |red|;
      var m := KeyWarp(grid, span, qk, floor, |red|, logits);
      WrittenMore(span, qk, old(logits[..]), mid, logits[..], SpanDone(grid, span, w), WarpCells(grid, span, w));
      WarpAdds(grid, span, w);
      red := red + [m];
    }
    WarpsMax(grid, span, qk, floor, red);
    MaxLaws();
    var lanes := seq(grid.warp, _ => floor);
    qkMax := WarpResult(MaxOp(), red, lanes);
    SpanWritten(span, qk, old(logits[..]), logits[..]);
  }

  /** Every cell of the span's blocks holds the score of its token, zero beyond the context; no other cell changes. */
  ghost predicate Scored(span: Span, qk: Score, before: seq<real>, now: seq<real>) {
    var start, cells := span.startBlock * span.blockSize, (span.endBlock - span.startBlock) * span.blockSize;
    && |now| == |before|
    && (forall t :: 0 <= t < cells && t < |now| ==> now[t] == if start + t < span.context then qk(start + t) else 0.0)
    && (forall t :: 0 <= t < |now| && cells <= t ==> now[t] == before[t])
  }

  lemma SpanWritten(span: Span, qk: Score, before: seq<real>, now: seq<real>)
    requires Written(span, qk, before, now, SpanCells(span))
    ensures Scored(span, qk, before, now)
  {
  }

  /** The scores of the span's tokens, in order. */
  function Scores(span: Span, qk: Score): seq<real>
    requires span.Tokens() >= 0
  {
    seq(span.Tokens(), t => qk(span.StartToken() + t))
  }

  /** With a floor below every score, the maximum kept is the maximum of the scores. */
  lemma KeptMaxIsMax(span: Span, qk: Score, floor: real, m: real)
    requires span.Valid() && span.Tokens() > 0 && MaxOf(span, qk, floor, m, SpanCells(span))
    requires forall x :: x in Scores(span, qk) ==> floor <= x
    ensures m == Max(Scores(span, qk))
  {
    var xs := Scores(span, qk);
    MaxIsMember(xs);
    forall t | 0 <= t < |xs| ensures xs[t] <= m {
      assert InContext(span, t) && InCells(span, t);
    }
    assert xs[0] in xs;
    if m != floor {
      var t :| InContext(span, t) && m == qk(span.StartToken() + t);
      assert xs[t] in xs;
    }
  }
}
