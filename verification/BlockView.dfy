/**
 The flattened caches as sequences of blocks: the copy kernel element by element is the copy of whole blocks, and what
 a sequence has stored follows the blocks of its table. This joins the memory operations on blocks with the element
 addresses.
 */
module BlockView {
  import opened Arithmetic
  import opened Strides
  import opened Pools
  import opened Engine
  import opened MemoryOps
  import opened Addressing
  import opened CachedAttention
  import opened Slots
  import opened StepInvariant
  import opened Scheduler
  import opened ScheduleSafety
  import opened ScheduleTheorem
  import opened SwapSpan

  // ----- Blocks of a flattened cache

  /** The elements of block `k` in a cache with `numel` elements per block. */
  function BlockOf<D>(cache: seq<D>, numel: nat, k: nat): seq<D>
    requires k * numel + numel <= |cache|
  {
    cache[k * numel..k * numel + numel]
  }

  lemma BlockInCache(blocks: nat, numel: nat, k: nat)
    requires k < blocks
    ensures 0 <= k * numel && k * numel + numel <= blocks * numel
  {
    TimesMonotone(k + 1, blocks, numel);
    assert (k + 1) * numel == k * numel + numel;
  }

  function View<D>(cache: seq<D>, numel: nat, blocks: nat): seq<seq<D>>
    requires |cache| == blocks * numel
  {
    seq(blocks, k requires 0 <= k < blocks => BlockInCache(blocks, numel, k); BlockOf(cache, numel, k))
  }

  // ----- The copy kernel

  /** One pair: strided threads copy the elements of the source block to the destination block. */
  method CopyPair<D(!new)>(cache: array<D>, numel: nat, blocks: nat, pair: (nat, nat), threads: nat)
    requires cache.Length == blocks * numel && pair.0 < blocks && pair.1 < blocks && pair.0 != pair.1 && threads > 0
    modifies cache
    ensures View(cache[..], numel, blocks) == CopyOne(View(old(cache[..]), numel, blocks), pair)
  {
    var (src, dst) := pair;
    BlockInCache(blocks, numel, src);
    BlockInCache(blocks, numel, dst);
    BlocksApart(numel, src, dst);
    ghost var before := cache[..];
    CopyElements(cache, src * numel, dst * numel, numel, threads);
    PairCopied(before, cache[..], numel, blocks, src, dst);
  }

  /** The element loop: `numel` elements from offset `from` to offset `to`. */
  method CopyElements<D>(cache: array<D>, from: nat, to: nat, numel: nat, threads: nat)
    requires from + numel <= cache.Length && to + numel <= cache.Length && threads > 0
    requires from + numel <= to || to + numel <= from
    modifies cache
    ensures cache[to..to + numel] == old(cache[..])[from..from + numel]
    ensures forall a :: 0 <= a < cache.Length && !(to <= a < to + numel) ==> cache[a] == old(cache[a])
  {
    hide Handled;
    ghost var before := cache[..];
    var thread := 0;
    NoneHandled(threads);
    while thread < threads
      invariant thread <= threads
      invariant forall a :: to <= a < to + numel && Handled(a - to, threads, thread, thread) ==>
                  cache[a] == before[a - to + from]
      invariant forall a :: 0 <= a < cache.Length && !(to <= a < to + numel) ==> cache[a] == before[a]
    {
      var at := thread;
      QuotientUnique(thread, threads, 0, thread);
      while at < numel
        invariant at % threads == thread
        invariant forall a :: to <= a < to + numel && Handled(a - to, threads, thread, at) ==>
                    cache[a] == before[a - to + from]
        invariant forall a :: 0 <= a < cache.Length && !(to <= a < to + numel) ==> cache[a] == before[a]
        decreases numel - at
      {
        cache[to + at] := cache[from + at];
        forall i: nat
          ensures Handled(i, threads, thread, at + threads) <==> Handled(i, threads, thread, at) || i == at
        {
          NextHandled(i, threads, thread, at);
        }
        NextHandled(at, threads, thread, at);
        at := at + threads;
      }
      forall i: nat | i < numel
        ensures Handled(i, threads, thread + 1, thread + 1) ==> Handled(i, threads, thread, at)
      {
        NextThread(i, threads, thread, at);
      }
      thread := thread + 1;
    }
    forall i: nat ensures Handled(i, threads, threads, threads) {
      AllHandled(i, threads);
    }
  }

  lemma BlocksApart(numel: nat, k: nat, l: nat)
    requires k != l
    ensures k * numel + numel <= l * numel || l * numel + numel <= k * numel
  {
    if k < l {
      BlockInCache(l, numel, k);
    } else {
      BlockInCache(k, numel, l);
    }
  }

  lemma PairCopied<D(!new)>(before: seq<D>, now: seq<D>, numel: nat, blocks: nat, src: nat, dst: nat)
    requires |before| == |now| == blocks * numel && src < blocks && dst < blocks && src != dst
    requires src * numel + numel <= |before| && dst * numel + numel <= |now|
    requires BlockOf(now, numel, dst) == BlockOf(before, numel, src)
    requires forall a :: 0 <= a < |now| && !(dst * numel <= a < dst * numel + numel) ==> now[a] == before[a]
    ensures View(now, numel, blocks) == CopyOne(View(before, numel, blocks), (src, dst))
  {
    var v, v' := View(before, numel, blocks), View(now, numel, blocks);
    forall k | 0 <= k < blocks ensures v'[k] == if k == dst then v[src] else v[k] {
      BlockInCache(blocks, numel, k);
      if k != dst {
        BlocksApart(numel, k, dst);
        SameBlock(before, now, numel, k);
      }
    }
  }

  lemma SameBlock<D>(before: seq<D>, now: seq<D>, numel: nat, k: nat)
    requires |before| == |now| && k * numel + numel <= |now|
    requires forall i :: k * numel <= i < k * numel + numel ==> 0 <= i && now[i] == before[i]
    ensures BlockOf(now, numel, k) == BlockOf(before, numel, k)
  {
  }

  /**
   The launch over all pairs: the blocks of the cache are copied as the model of the cache engine copies its cells.
   */
  method CopyKernel<D(!new)>(cache: array<D>, numel: nat, blocks: nat, pairs: seq<(nat, nat)>, threads: nat)
    requires cache.Length == blocks * numel && threads > 0
    requires forall p :: p in pairs ==> p.0 < blocks && p.1 < blocks && p.0 != p.1
    modifies cache
    ensures View(cache[..], numel, blocks) == CopyAll(View(old(cache[..]), numel, blocks), pairs)
  {
    hide View, CopyOne;
    ghost var v := View(cache[..], numel, blocks);
    var k := 0;
    assert pairs[0..] == pairs;
    while k < |pairs|
      invariant k <= |pairs| && CopyAll(v, pairs) == CopyAll(View(cache[..], numel, blocks), pairs[k..])
    {
      assert pairs[k] in pairs;
      assert pairs[k..][0] == pairs[k] && pairs[k..][1..] == pairs[k + 1..];
      CopyPair(cache, numel, blocks, pairs[k], threads);
      k := k + 1;
    }
  }

  // ----- Elements of a slot

  function KeyNumel(l: Layout): nat
    requires l.Valid()
  {
    l.heads * (l.headSize / l.x) * l.blockSize * l.x
  }

  function ValueNumel(l: Layout): nat
    requires l.Valid()
  {
    l.heads * l.headSize * l.blockSize
  }

  /** The cells of a slot lie in its block, at places that depend on its offset only. */
  lemma CellInBlock(l: Layout, slot: nat, i: nat)
    requires l.Valid() && l.headSize % l.x == 0 && i < l.heads * l.headSize
    ensures var k, o := slot / l.blockSize, slot % l.blockSize;
            && 0 <= KeyWriteIndex(l, o, i) < KeyNumel(l) && 0 <= ValueWriteIndex(l, o, i) < ValueNumel(l)
            && KeyWriteIndex(l, slot, i) == k * KeyNumel(l) + KeyWriteIndex(l, o, i)
            && ValueWriteIndex(l, slot, i) == k * ValueNumel(l) + ValueWriteIndex(l, o, i)
  {
    var k, o := slot / l.blockSize, slot % l.blockSize;
    QuotientUnique(o, l.blockSize, 0, o);
    WritesInRange(l, 1, o, i);
    BlockTerms(k, l.heads, l.headSize / l.x, l.headSize, l.blockSize, l.x);
  }

  lemma BlockTerms(k: int, h: int, g: int, d: int, b: int, x: int)
    ensures k * h * g * b * x == k * (h * g * b * x) && 0 * h * g * b * x == 0
    ensures k * h * d * b == k * (h * d * b) && 0 * h * d * b == 0
    ensures 1 * h * g * b * x == h * g * b * x && 1 * h * d * b == h * d * b
  {
  }

  /** Caches for `blocks` blocks. */
  ghost predicate Fit(l: Layout, blocks: nat, kc: seq<real>, vc: seq<real>) {
    l.Valid() && l.headSize % l.x == 0 && |kc| == blocks * KeyNumel(l) && |vc| == blocks * ValueNumel(l)
  }

  /** A block of the key cache and the same block of the value cache. */
  type Planes = (seq<real>, seq<real>)

  ghost function Pair(l: Layout, blocks: nat, kc: seq<real>, vc: seq<real>, k: nat): Planes
    requires Fit(l, blocks, kc, vc) && k < blocks
  {
    BlockInCache(blocks, KeyNumel(l), k);
    BlockInCache(blocks, ValueNumel(l), k);
    (BlockOf(kc, KeyNumel(l), k), BlockOf(vc, ValueNumel(l), k))
  }

  /** What a slot holds is determined by its block and its offset. */
  lemma StoredFollowsBlock(l: Layout, blocks: nat, kc: seq<real>, vc: seq<real>, kc': seq<real>, vc': seq<real>,
                           slot: nat, slot': nat, key: seq<real>, value: seq<real>)
    requires Fit(l, blocks, kc, vc) && Fit(l, blocks, kc', vc')
    requires slot / l.blockSize < blocks && slot' / l.blockSize < blocks && slot % l.blockSize == slot' % l.blockSize
    requires Pair(l, blocks, kc', vc', slot' / l.blockSize) == Pair(l, blocks, kc, vc, slot / l.blockSize)
    requires StoredAt(l, kc, vc, slot, key, value)
    ensures StoredAt(l, kc', vc', slot', key, value)
  {
    hide KeyWriteIndex, ValueWriteIndex, KeyNumel, ValueNumel, Fit, Pair, BlockOf;
    assert l.Valid();
    forall i | 0 <= i < |key|
      ensures 0 <= KeyWriteIndex(l, slot', i) < |kc'| && kc'[KeyWriteIndex(l, slot', i)] == key[i]
      ensures 0 <= ValueWriteIndex(l, slot', i) < |vc'| && vc'[ValueWriteIndex(l, slot', i)] == value[i]
    {
      CellFollowsBlock(l, blocks, kc, vc, kc', vc', slot, slot', i);
    }
  }

  lemma CellFollowsBlock(l: Layout, blocks: nat, kc: seq<real>, vc: seq<real>, kc': seq<real>, vc': seq<real>,
                         slot: nat, slot': nat, i: nat)
    requires Fit(l, blocks, kc, vc) && Fit(l, blocks, kc', vc') && i < l.heads * l.headSize
    requires slot / l.blockSize < blocks && slot' / l.blockSize < blocks && slot % l.blockSize == slot' % l.blockSize
    requires Pair(l, blocks, kc', vc', slot' / l.blockSize) == Pair(l, blocks, kc, vc, slot / l.blockSize)
    ensures 0 <= KeyWriteIndex(l, slot, i) < |kc| && 0 <= KeyWriteIndex(l, slot', i) < |kc'|
    ensures 0 <= ValueWriteIndex(l, slot, i) < |vc| && 0 <= ValueWriteIndex(l, slot', i) < |vc'|
    ensures kc'[KeyWriteIndex(l, slot', i)] == kc[KeyWriteIndex(l, slot, i)]
    ensures vc'[ValueWriteIndex(l, slot', i)] == vc[ValueWriteIndex(l, slot, i)]
  {
    hide KeyWriteIndex, ValueWriteIndex, KeyNumel, ValueNumel, BlockOf;
    var k, k', o := slot / l.blockSize, slot' / l.blockSize, slot % l.blockSize;
    CellInBlock(l, slot, i);
    CellInBlock(l, slot', i);
    BlockInCache(blocks, KeyNumel(l), k);
    BlockInCache(blocks, KeyNumel(l), k');
    BlockInCache(blocks, ValueNumel(l), k);
    BlockInCache(blocks, ValueNumel(l), k');
    ElementFollows(kc, kc', KeyNumel(l), blocks, k, k', KeyWriteIndex(l, o, i));
    ElementFollows(vc, vc', ValueNumel(l), blocks, k, k', ValueWriteIndex(l, o, i));
  }

  lemma ElementFollows<D>(cache: seq<D>, cache': seq<D>, numel: nat, blocks: nat, k: nat, k': nat, r: nat)
    requires |cache| == |cache'| == blocks * numel && k < blocks && k' < blocks && r < numel
    requires k * numel + numel <= |cache| && k' * numel + numel <= |cache'|
    requires BlockOf(cache', numel, k') == BlockOf(cache, numel, k)
    ensures 0 <= k * numel + r < |cache| && 0 <= k' * numel + r < |cache'|
    ensures cache'[k' * numel + r] == cache[k * numel + r]
  {
    assert BlockOf(cache', numel, k')[r] == BlockOf(cache, numel, k)[r];
  }

  /** The GPU blocks of a memory are those of these caches. */
  ghost predicate GpuIs(l: Layout, blocks: nat, kc: seq<real>, vc: seq<real>, m: Memory<Planes>) {
    Fit(l, blocks, kc, vc) && (forall k: nat :: k < blocks ==> m(Block(Gpu, k)) == Pair(l, blocks, kc, vc, k))
  }

  ghost predicate OnGpu(blocks: nat, table: Table) {
    forall b :: b in table ==> b.dev.Gpu? && b.id < blocks
  }

  /**
   What a running sequence has in the element caches it still has after a schedule step and the execution of its
   operations, through its new table, whether or not its blocks were copied.
   */
  lemma StepKeepsStored(c: Config, own: Owner, s: State, l: Layout, blocks: nat, kc: seq<real>, vc: seq<real>,
                        kc': seq<real>, vc': seq<real>, m: Memory<Planes>, m': Memory<Planes>,
                        i: SeqId, ks: seq<seq<real>>, vs: seq<seq<real>>)
    requires SchedulerOk(own, s) && PoolBounded(c, s.engine) && Schedule(c, s).Done?
    requires Executed(Schedule(c, s).value.1.ops, m, m')
    requires GpuIs(l, blocks, kc, vc, m) && GpuIs(l, blocks, kc', vc', m')
    requires i in s.engine.tables && i in Schedule(c, s).value.0.engine.tables
    requires OnGpu(blocks, s.engine.tables[i]) && OnGpu(blocks, Schedule(c, s).value.0.engine.tables[i])
    requires Stored(l, Cached(s.engine.tables[i], ks, vs), kc, vc)
    ensures Stored(l, Cached(Schedule(c, s).value.0.engine.tables[i], ks, vs), kc', vc')
  {
    hide SchedulerOk, Schedule, PoolBounded, Executed, Stored, OnGpu, GpuIs;
    StepReadsSame(c, own, s, m, m', i);
    StoredFollowsTable(l, blocks, kc, vc, kc', vc', m, m', s.engine.tables[i],
                       Schedule(c, s).value.0.engine.tables[i], ks, vs);
  }

  lemma StoredFollowsTable(l: Layout, blocks: nat, kc: seq<real>, vc: seq<real>, kc': seq<real>, vc': seq<real>,
                           m: Memory<Planes>, m': Memory<Planes>, table: Table, table': Table,
                           ks: seq<seq<real>>, vs: seq<seq<real>>)
    requires GpuIs(l, blocks, kc, vc, m) && GpuIs(l, blocks, kc', vc', m')
    requires OnGpu(blocks, table) && OnGpu(blocks, table') && |table| <= |table'|
    requires forall j :: 0 <= j < |table| ==> m'(table'[j]) == m(table[j])
    requires Stored(l, Cached(table, ks, vs), kc, vc)
    ensures Stored(l, Cached(table', ks, vs), kc', vc')
  {
    hide StoredAt, Pair, Fit, Slot;
    var before, after := Cached(table, ks, vs), Cached(table', ks, vs);
    forall t | 0 <= t < |ks|
      ensures t / l.blockSize < |table'| && StoredAt(l, kc', vc', Slot(l.blockSize, table', t), ks[t], vs[t])
    {
      var j := t / l.blockSize;
      assert StoredAt(l, kc, vc, Slot(l.blockSize, before.table, t), before.ks[t], before.vs[t]);
      assert table[j] in table && table'[j] in table';
      assert table[j] == Block(Gpu, table[j].id) && table'[j] == Block(Gpu, table'[j].id);
      SlotParts(l.blockSize, table, t);
      SlotParts(l.blockSize, table', t);
      StoredFollowsBlock(l, blocks, kc, vc, kc', vc', Slot(l.blockSize, table, t), Slot(l.blockSize, table', t),
                         ks[t], vs[t]);
    }
  }
}
