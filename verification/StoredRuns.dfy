/**
 The element caches through a run of the generation loop: the slot mapping of a batch, the kernel launch that writes
 it, and what each running sequence finds in the flattened key and value caches before every iteration.
 */
module StoredRuns {
  import opened Pools
  import opened Engine
  import opened StepInvariant
  import opened Scheduler
  import opened ScheduleSafety
  import opened ScheduleTheorem
  import opened QueueOrder
  import opened SingleSequence
  import opened Generation
  import opened RunHistory
  import opened Slots
  import opened Addressing
  import opened CacheWrite
  import opened CachedAttention
  import opened CacheRuns

  type KeyValue = (seq<real>, seq<real>)

  /** The key and the value that the caches hold at each slot. */
  ghost function SlotView(l: Layout, kc: seq<real>, vc: seq<real>): Cells<KeyValue>
    requires l.Valid()
  {
    (slot: nat) =>
      (seq(l.heads * l.headSize, (i: int) requires i >= 0 => Cell(kc, KeyWriteIndex(l, slot, i))),
       seq(l.heads * l.headSize, (i: int) requires i >= 0 => Cell(vc, ValueWriteIndex(l, slot, i))))
  }

  lemma ViewIsStored(l: Layout, blocks: nat, kc: seq<real>, vc: seq<real>, slot: nat, key: seq<real>, value: seq<real>)
    requires Sized(l, blocks, |kc|, |vc|) && slot < blocks * l.blockSize
    ensures StoredAt(l, kc, vc, slot, key, value) <==> SlotView(l, kc, vc)(slot) == (key, value)
  {
    hide KeyWriteIndex, ValueWriteIndex;
    var (k, v) := SlotView(l, kc, vc)(slot);
    forall i | 0 <= i < l.heads * l.headSize
      ensures 0 <= KeyWriteIndex(l, slot, i) < |kc| && k[i] == kc[KeyWriteIndex(l, slot, i)]
      ensures 0 <= ValueWriteIndex(l, slot, i) < |vc| && v[i] == vc[ValueWriteIndex(l, slot, i)]
    {
      WritesInRange(l, blocks, slot, i);
    }
    if StoredAt(l, kc, vc, slot, key, value) {
      assert k == key && v == value;
    }
  }

  // ----- The slot mapping of a batch

  /** An entry of the mapping: a position of a sequence, or padding. */
  datatype Token = Pad | At(i: SeqId, pos: nat)

  /** The entry's slot; padding has a negative one. */
  ghost predicate Maps(c: Config, s: State, token: Token, slot: int) {
    match token
    case Pad => slot < 0
    case At(i, pos) =>
      && c.blockSize > 0 && i in s.engine.tables && pos / c.blockSize < |s.engine.tables[i]|
      && slot == Slot(c.blockSize, s.engine.tables[i], pos)
  }

  /** The mapping has the positions that the batch writes, all of them and no others. */
  ghost predicate SlotMapping(c: Config, s: State, batch: seq<Group>, prompt: bool, tokens: seq<Token>,
                              slots: seq<int>) {
    && |tokens| == |slots|
    && (forall t :: 0 <= t < |tokens| ==> Maps(c, s, tokens[t], slots[t]))
    && (forall i, pos: nat :: Writes(s, batch, prompt, i, pos) <==> At(i, pos) in tokens)
  }

  /** A row for one sequence: its positions from `first` on, padded to `width`. */
  method MapSequence(c: Config, s: State, i: SeqId, first: nat, width: nat)
    returns (tokens: seq<Token>, slots: seq<int>)
    requires LookupOk(c, s, i) && first <= Len(s.seqs, i)
    ensures |tokens| == |slots| && forall t :: 0 <= t < |tokens| ==> Maps(c, s, tokens[t], slots[t])
    ensures forall j, pos: nat :: At(j, pos) in tokens <==> j == i && first <= pos < Len(s.seqs, i)
    ensures |tokens| >= width && (|tokens| == width || |tokens| == Len(s.seqs, i) - first)
  {
    hide Slot;
    tokens, slots := [], [];
    EntriesBelow(c, s, i);
    var pos := first;
    while pos < Len(s.seqs, i)
      invariant first <= pos <= Len(s.seqs, i) && |tokens| == |slots| == pos - first
      invariant forall t :: 0 <= t < |tokens| ==> Maps(c, s, tokens[t], slots[t])
      invariant forall j, q: nat :: At(j, q) in tokens <==> j == i && first <= q < pos
    {
      tokens, slots := tokens + [At(i, pos)], slots + [Slot(c.blockSize, s.engine.tables[i], pos)];
      pos := pos + 1;
    }
    while |tokens| < width
      invariant |tokens| == |slots| && (|tokens| <= width || |tokens| == Len(s.seqs, i) - first)
      invariant forall t :: 0 <= t < |tokens| ==> Maps(c, s, tokens[t], slots[t])
      invariant forall j, q: nat :: At(j, q) in tokens <==> j == i && first <= q < Len(s.seqs, i)
    {
      tokens, slots := tokens + [Pad], slots + [-1];
    }
  }

  /** The whole batch: every position of each sequence on the prompt path, the last one on the decode path. */
  method MapBatch(c: Config, s: State, batch: seq<Group>, prompt: bool, width: nat)
    returns (tokens: seq<Token>, slots: seq<int>)
    requires forall i :: InBatch(batch, i) ==> LookupOk(c, s, i)
    ensures SlotMapping(c, s, batch, prompt, tokens, slots)
  {
    hide LookupOk, Maps, SlotMapping;
    tokens, slots := [], [];
    assert SlotMapping(c, s, batch[..0], prompt, tokens, slots) by { NothingMapped(c, s, batch, prompt); }
    var k := 0;
    while k < |batch|
      invariant k <= |batch| && SlotMapping(c, s, batch[..k], prompt, tokens, slots)
    {
      var g := batch[k];
      assert g in batch;
      var j := 0;
      assert batch[..k] + [g.(seqs := g.seqs[..0])] == batch[..k] + [g.(seqs := [])];
      EmptyGroup(c, s, batch[..k], g, prompt, tokens, slots);
      while j < |g.seqs|
        invariant j <= |g.seqs| && SlotMapping(c, s, batch[..k] + [g.(seqs := g.seqs[..j])], prompt, tokens, slots)
      {
        var i := g.seqs[j];
        assert InBatch(batch, i);
        Nonempty(c, s, i);
        var first := if prompt then 0 else Len(s.seqs, i) - 1;
        var ts, ss := MapSequence(c, s, i, first, if prompt then width else 1);
        OneMore(c, s, batch[..k], g, j, prompt, tokens, slots, ts, ss);
        tokens, slots := tokens + ts, slots + ss;
        j := j + 1;
      }
      assert g.seqs[..j] == g.seqs;
      assert batch[..k] + [g.(seqs := g.seqs[..j])] == batch[..k + 1];
      k := k + 1;
    }
    assert batch[..k] == batch;
  }

  lemma Nonempty(c: Config, s: State, i: SeqId)
    requires LookupOk(c, s, i)
    ensures Len(s.seqs, i) > 0
  {
  }

  lemma NothingMapped(c: Config, s: State, batch: seq<Group>, prompt: bool)
    ensures SlotMapping(c, s, batch[..0], prompt, [], [])
  {
  }

  lemma EmptyGroup(c: Config, s: State, batch: seq<Group>, g: Group, prompt: bool, tokens: seq<Token>, slots: seq<int>)
    requires SlotMapping(c, s, batch, prompt, tokens, slots)
    ensures SlotMapping(c, s, batch + [g.(seqs := g.seqs[..0])], prompt, tokens, slots)
  {
    hide Maps;
    forall i ensures InBatch(batch + [g.(seqs := g.seqs[..0])], i) <==> InBatch(batch, i) {
      BatchPush(batch, g.(seqs := g.seqs[..0]), i);
    }
  }

  lemma BatchPush(batch: seq<Group>, g: Group, i: SeqId)
    ensures InBatch(batch + [g], i) <==> InBatch(batch, i) || i in g.seqs
  {
    assert (batch + [g])[|batch|] == g;
  }

  lemma OneMore(c: Config, s: State, batch: seq<Group>, g: Group, j: nat, prompt: bool, tokens: seq<Token>,
                slots: seq<int>, ts: seq<Token>, ss: seq<int>)
    requires j < |g.seqs| && SlotMapping(c, s, batch + [g.(seqs := g.seqs[..j])], prompt, tokens, slots)
    requires |ts| == |ss| && forall t :: 0 <= t < |ts| ==> Maps(c, s, ts[t], ss[t])
    requires forall k, pos: nat :: At(k, pos) in ts <==>
               && k == g.seqs[j] && pos < Len(s.seqs, k) && (prompt || pos == Len(s.seqs, k) - 1)
    ensures SlotMapping(c, s, batch + [g.(seqs := g.seqs[..j + 1])], prompt, tokens + ts, slots + ss)
  {
    hide Maps, InBatch;
    assert g.seqs[..j + 1] == g.seqs[..j] + [g.seqs[j]];
    forall i
      ensures InBatch(batch + [g.(seqs := g.seqs[..j + 1])], i) <==>
              InBatch(batch + [g.(seqs := g.seqs[..j])], i) || i == g.seqs[j]
    {
      BatchPush(batch, g.(seqs := g.seqs[..j + 1]), i);
      BatchPush(batch, g.(seqs := g.seqs[..j]), i);
    }
  }

  // ----- The launch

  /** What the kernel is given for each entry of the mapping. */
  ghost predicate Inputs(l: Layout, tokens: seq<Token>, d: Data<KeyValue>, keys: seq<seq<real>>,
                         values: seq<seq<real>>) {
    && |keys| == |values| == |tokens|
    && (forall t :: 0 <= t < |tokens| ==> |keys[t]| == |values[t]| == l.heads * l.headSize)
    && (forall t :: 0 <= t < |tokens| && tokens[t].At? ==> d(tokens[t].i, tokens[t].pos) == (keys[t], values[t]))
  }

  /** The launch on the elements is the write of the batch on the slots. */
  lemma LaunchIsWrite(c: Config, own: Owner, s: State, batch: seq<Group>, prompt: bool, l: Layout, tokens: seq<Token>,
                      slots: seq<int>, d: Data<KeyValue>, keys: seq<seq<real>>, values: seq<seq<real>>,
                      kc: seq<real>, vc: seq<real>, kc': seq<real>, vc': seq<real>)
    requires Flat(own, s) && PoolBounded(c, s.engine) && l.Valid() && l.blockSize == c.blockSize
    requires SlotMapping(c, s, batch, prompt, tokens, slots) && Inputs(l, tokens, d, keys, values)
    requires Launched(l, c.numGpuBlocks, slots, keys, values, kc, vc, kc', vc')
    ensures Wrote(c, s, batch, prompt, d, SlotView(l, kc, vc), SlotView(l, kc', vc'))
  {
    hide Flat, PoolBounded, SlotView, Launched, Slot, Writes, Inputs;
    forall i, pos: nat | Writes(s, batch, prompt, i, pos)
      ensures i in s.engine.tables && pos / c.blockSize < |s.engine.tables[i]|
      ensures SlotView(l, kc', vc')(Slot(c.blockSize, s.engine.tables[i], pos)) == d(i, pos)
    {
      assert At(i, pos) in tokens;
      var t :| 0 <= t < |tokens| && tokens[t] == At(i, pos);
      WrittenCell(c, own, s, l, tokens, slots, d, keys, values, kc, vc, kc', vc', t);
    }
    forall slot: nat | slot < c.numGpuBlocks * c.blockSize && CacheRuns.Untouched(c, s, batch, prompt, slot)
      ensures SlotView(l, kc', vc')(slot) == SlotView(l, kc, vc)(slot)
    {
      NotMapped(c, s, batch, prompt, tokens, slots, slot);
      KeptCell(l, c.numGpuBlocks, slots, keys, values, kc, vc, kc', vc', slot);
    }
  }

  lemma WrittenCell(c: Config, own: Owner, s: State, l: Layout, tokens: seq<Token>, slots: seq<int>, d: Data<KeyValue>,
                    keys: seq<seq<real>>, values: seq<seq<real>>,
                    kc: seq<real>, vc: seq<real>, kc': seq<real>, vc': seq<real>, t: nat)
    requires Flat(own, s) && PoolBounded(c, s.engine) && l.Valid() && l.blockSize == c.blockSize
    requires |tokens| == |slots| && (forall u :: 0 <= u < |tokens| ==> Maps(c, s, tokens[u], slots[u]))
    requires Inputs(l, tokens, d, keys, values) && t < |tokens| && tokens[t].At?
    requires Launched(l, c.numGpuBlocks, slots, keys, values, kc, vc, kc', vc')
    ensures slots[t] >= 0 && SlotView(l, kc', vc')(slots[t]) == d(tokens[t].i, tokens[t].pos)
  {
    hide Flat, PoolBounded, KeyWriteIndex, ValueWriteIndex, Slot, FromSlot, Maps;
    forall u | 0 <= u < |slots| && slots[u] == slots[t] ensures keys[u] == keys[t] && values[u] == values[t] {
      SameToken(c, own, s, tokens[t], tokens[u], slots[t]);
    }
    SameToken(c, own, s, tokens[t], tokens[t], slots[t]);
    var (k, v) := SlotView(l, kc', vc')(slots[t]);
    forall i | 0 <= i < l.heads * l.headSize ensures k[i] == keys[t][i] && v[i] == values[t][i] {
      OneSource(slots, keys, t, i, k[i]);
      OneSource(slots, values, t, i, v[i]);
    }
    assert k == keys[t] && v == values[t];
  }

  lemma SameToken(c: Config, own: Owner, s: State, token: Token, other: Token, slot: int)
    requires Flat(own, s) && PoolBounded(c, s.engine) && token.At? && Maps(c, s, token, slot) && Maps(c, s, other, slot)
    ensures slot >= 0 && token == other
  {
    hide Flat, PoolBounded, Slot;
    assert slot >= 0;
    SlotsApart(c, own, s, token.i, token.pos, other.i, other.pos);
  }

  lemma OneSource(slots: seq<int>, data: seq<seq<real>>, t: nat, i: nat, x: real)
    requires FromSlot(slots, data, t, i, x) && t < |slots| == |data|
    requires forall u :: 0 <= u < |slots| && slots[u] == slots[t] ==> data[u] == data[t]
    ensures i < |data[t]| && data[t][i] == x
  {
  }

  lemma NotMapped(c: Config, s: State, batch: seq<Group>, prompt: bool, tokens: seq<Token>, slots: seq<int>, slot: nat)
    requires SlotMapping(c, s, batch, prompt, tokens, slots) && CacheRuns.Untouched(c, s, batch, prompt, slot)
    ensures slot !in slots
  {
    hide Slot, Writes;
    forall t | 0 <= t < |slots| ensures slots[t] != slot {
      assert Maps(c, s, tokens[t], slots[t]);
      if tokens[t].At? {
        assert At(tokens[t].i, tokens[t].pos) in tokens;
        assert Writes(s, batch, prompt, tokens[t].i, tokens[t].pos);
      }
    }
  }

  lemma KeptCell(l: Layout, blocks: nat, slots: seq<int>, keys: seq<seq<real>>, values: seq<seq<real>>,
                 kc: seq<real>, vc: seq<real>, kc': seq<real>, vc': seq<real>, slot: nat)
    requires Launched(l, blocks, slots, keys, values, kc, vc, kc', vc') && slot < blocks * l.blockSize && slot !in slots
    ensures SlotView(l, kc', vc')(slot) == SlotView(l, kc, vc)(slot)
  {
    hide KeyWriteIndex, ValueWriteIndex, FromSlot, Launched;
    assert l.Valid() by { LaunchedValid(l, blocks, slots, keys, values, kc, vc, kc', vc'); }
    var (k, v) := SlotView(l, kc, vc)(slot);
    var (k', v') := SlotView(l, kc', vc')(slot);
    forall i | 0 <= i < l.heads * l.headSize ensures k'[i] == k[i] && v'[i] == v[i] {
      CellKept(l, blocks, slots, keys, values, kc, vc, kc', vc', slot, i);
    }
    assert k' == k && v' == v;
  }

  lemma LaunchedValid(l: Layout, blocks: nat, slots: seq<int>, keys: seq<seq<real>>, values: seq<seq<real>>,
                      kc: seq<real>, vc: seq<real>, kc': seq<real>, vc': seq<real>)
    requires Launched(l, blocks, slots, keys, values, kc, vc, kc', vc')
    ensures l.Valid()
  {
  }

  ghost predicate Shaped(l: Layout, d: Data<KeyValue>) {
    forall i, pos: nat :: |d(i, pos).0| == |d(i, pos).1| == l.heads * l.headSize
  }

  /** What the kernel is given for one entry; for padding it does not matter. */
  function Entry(n: nat, d: Data<KeyValue>, token: Token): KeyValue {
    if token.At? then d(token.i, token.pos) else (seq(n, _ => 0.0), seq(n, _ => 0.0))
  }

  /** One iteration's writes to the element caches: the mapping, then the kernel on what the model computed. */
  method WriteIteration(c: Config, ghost own: Owner, s: State, batch: seq<Group>, prompt: bool, width: nat, l: Layout,
                        threads: nat, d: Data<KeyValue>, keyCache: array<real>, valueCache: array<real>)
    requires Flat(own, s) && PoolBounded(c, s.engine) && (forall i :: InBatch(batch, i) ==> LookupOk(c, s, i))
    requires keyCache != valueCache && Sized(l, c.numGpuBlocks, keyCache.Length, valueCache.Length)
    requires l.blockSize == c.blockSize && threads > 0 && Shaped(l, d)
    modifies keyCache, valueCache
    ensures Wrote(c, s, batch, prompt, d, SlotView(l, old(keyCache[..]), old(valueCache[..])),
                  SlotView(l, keyCache[..], valueCache[..]))
  {
    hide Flat, PoolBounded, LookupOk, SlotMapping, SlotView, Launched, Wrote;
    var tokens, slots := MapBatch(c, s, batch, prompt, width);
    var n := l.heads * l.headSize;
    ghost var kc, vc := keyCache[..], valueCache[..];
    assert |tokens| == |slots| by { SlotBounds(c, own, s, batch, prompt, tokens, slots); }
    var keys := seq(|tokens|, t requires 0 <= t < |tokens| => Entry(n, d, tokens[t]).0);
    var values := seq(|tokens|, t requires 0 <= t < |tokens| => Entry(n, d, tokens[t]).1);
    SlotBounds(c, own, s, batch, prompt, tokens, slots);
    forall t | 0 <= t < |tokens| ensures |keys[t]| == |values[t]| == n {
      assert (keys[t], values[t]) == Entry(n, d, tokens[t]);
    }
    Launch(l, c.numGpuBlocks, threads, slots, keys, values, keyCache, valueCache);
    LaunchIsWrite(c, own, s, batch, prompt, l, tokens, slots, d, keys, values, kc, vc, keyCache[..], valueCache[..]);
  }

  lemma SlotBounds(c: Config, own: Owner, s: State, batch: seq<Group>, prompt: bool, tokens: seq<Token>,
                   slots: seq<int>)
    requires Flat(own, s) && PoolBounded(c, s.engine) && c.blockSize > 0
    requires SlotMapping(c, s, batch, prompt, tokens, slots)
    ensures |tokens| == |slots| && forall t :: 0 <= t < |slots| ==> slots[t] < c.numGpuBlocks * c.blockSize
  {
    hide Flat, PoolBounded, Slot, Writes;
    forall t | 0 <= t < |slots| ensures slots[t] < c.numGpuBlocks * c.blockSize {
      assert Maps(c, s, tokens[t], slots[t]);
      if tokens[t].At? {
        SlotsApart(c, own, s, tokens[t].i, tokens[t].pos, tokens[t].i, tokens[t].pos);
      }
    }
  }

  // ----- Every run

  /** The views of the element caches through a run. */
  ghost predicate ElementRun(c: Config, numCpuBlocks: nat, steps: seq<Step>, l: Layout, ds: seq<Data<KeyValue>>,
                             ms: seq<Cells<KeyValue>>, kc: seq<real>, vc: seq<real>) {
    && CacheRun(c, numCpuBlocks, steps, ds, ms)
    && Sized(l, c.numGpuBlocks, |kc|, |vc|) && l.blockSize == c.blockSize
    && ms[|steps|] == SlotView(l, kc, vc)
  }

  /**
   Before every iteration of every run: a running sequence whose last admission took the prompt path finds the keys and
   values of all its positions but the last in the element caches, through its table. This is what the next write and
   the attention kernel rely on.
   */
  lemma StoredBeforeIteration(c: Config, numCpuBlocks: nat, steps: seq<Step>, l: Layout, ds: seq<Data<KeyValue>>,
                              ms: seq<Cells<KeyValue>>, kc: seq<real>, vc: seq<real>, i: SeqId)
    requires IsRun(c, numCpuBlocks, steps) && ElementRun(c, numCpuBlocks, steps, l, ds, ms, kc, vc)
    requires i in Generate(c, numCpuBlocks, steps).value.state.engine.tables
    requires i in Filled(c, numCpuBlocks, steps) && Filled(c, numCpuBlocks, steps)[i]
    ensures var s := Generate(c, numCpuBlocks, steps).value.state;
            && Len(s.seqs, i) > 0
            && Stored(l, InTable(s.engine.tables[i], ds[|steps|], i, Len(s.seqs, i) - 1), kc, vc)
  {
    hide Generate, Filled, SlotView, Stored, Slot, Written, GenerationOk, Flat, PoolBounded, Sized, InTable, History,
         Forwarded;
    AllHeld(c, numCpuBlocks, steps, ds, ms, i);
    RunFlat(c, numCpuBlocks, steps, i);
    var w := Generate(c, numCpuBlocks, steps).value;
    ViewsStored(c, w.own, w.state, l, ds[|steps|], kc, vc, i, Len(w.state.seqs, i) - 1);
  }

  lemma AllHeld(c: Config, numCpuBlocks: nat, steps: seq<Step>, ds: seq<Data<KeyValue>>, ms: seq<Cells<KeyValue>>,
                i: SeqId)
    requires IsRun(c, numCpuBlocks, steps) && CacheRun(c, numCpuBlocks, steps, ds, ms)
    requires i in Generate(c, numCpuBlocks, steps).value.state.engine.tables
    requires i in Filled(c, numCpuBlocks, steps) && Filled(c, numCpuBlocks, steps)[i]
    ensures var s := Generate(c, numCpuBlocks, steps).value.state;
            forall t: nat :: t < Len(s.seqs, i) - 1 ==>
              && c.blockSize > 0 && t / c.blockSize < |s.engine.tables[i]|
              && ms[|steps|](Slot(c.blockSize, s.engine.tables[i], t)) == ds[|steps|](i, t)
  {
    hide Generate, Filled, Slot, Written, History, CacheRun;
    CacheHolds(c, numCpuBlocks, steps, ds, ms, i);
  }

  lemma ViewsStored(c: Config, own: Owner, s: State, l: Layout, d: Data<KeyValue>, kc: seq<real>, vc: seq<real>,
                    i: SeqId, n: nat)
    requires Flat(own, s) && PoolBounded(c, s.engine) && Sized(l, c.numGpuBlocks, |kc|, |vc|)
    requires l.blockSize == c.blockSize
    requires i in s.engine.tables
    requires forall t: nat :: t < n ==>
               && t / c.blockSize < |s.engine.tables[i]|
               && SlotView(l, kc, vc)(Slot(c.blockSize, s.engine.tables[i], t)) == d(i, t)
    ensures Stored(l, InTable(s.engine.tables[i], d, i, n), kc, vc)
  {
    hide SlotView, StoredAt, Slot, Flat, PoolBounded;
    var table := s.engine.tables[i];
    var cached := InTable(table, d, i, n);
    forall t: nat | t < n ensures StoredAt(l, kc, vc, Slot(l.blockSize, table, t), cached.ks[t], cached.vs[t]) {
      SlotsApart(c, own, s, i, t, i, t);
      ViewIsStored(l, c.numGpuBlocks, kc, vc, Slot(l.blockSize, table, t), cached.ks[t], cached.vs[t]);
    }
  }

  /** The first `n` positions of a sequence with what was computed for them. */
  ghost function InTable(table: Table, d: Data<KeyValue>, i: SeqId, n: nat): Cached {
    Cached(table, seq(n, t requires t >= 0 => d(i, t).0), seq(n, t requires t >= 0 => d(i, t).1))
  }

  lemma RunFlat(c: Config, numCpuBlocks: nat, steps: seq<Step>, i: SeqId)
    requires IsRun(c, numCpuBlocks, steps) && i in Generate(c, numCpuBlocks, steps).value.state.engine.tables
    ensures var w := Generate(c, numCpuBlocks, steps).value;
            Flat(w.own, w.state) && PoolBounded(c, w.state.engine) && Len(w.state.seqs, i) > 0 && c.blockSize > 0
  {
    hide Generate, SchedulerOk, PoolBounded, Exclusive, AllSingle, NewPools;
    RunIsOk(c, numCpuBlocks, steps);
    var w, admitted := Generate(c, numCpuBlocks, steps).value, History(c, numCpuBlocks, steps);
    TablesNotEmpty(c, numCpuBlocks, w, admitted);
    WorldParts(c, numCpuBlocks, w);
  }
}
