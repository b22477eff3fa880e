/**
 The write kernel and the attention kernels on one cache: a decode batch writes its tokens through the slots of their
 tables, and attention over a sequence reads them back through the same table. The result for a row is the softmax
 over the keys and values the sequence was given.
 */
module CachedAttention {
  import opened Outcomes
  import opened Engine
  import opened Scheduler
  import opened Generation
  import opened Arithmetic
  import opened Addressing
  import opened CacheWrite
  import opened Sums
  import opened Slots
  import opened Attention
  import opened KeyPass
  import opened ValuePass
  import opened AttentionKernel
  import opened PartitionedAttention

  // ----- What the cache holds of a sequence

  /** The elements of a token are in the cells of a slot. */
  ghost predicate StoredAt(l: Layout, kc: seq<real>, vc: seq<real>, slot: nat, key: seq<real>, value: seq<real>) {
    && l.Valid() && |key| == |value| == l.heads * l.headSize
    && (forall i :: 0 <= i < |key| ==>
          && 0 <= KeyWriteIndex(l, slot, i) < |kc| && kc[KeyWriteIndex(l, slot, i)] == key[i]
          && 0 <= ValueWriteIndex(l, slot, i) < |vc| && vc[ValueWriteIndex(l, slot, i)] == value[i])
  }

  /** A sequence's table, and the keys and values of its positions. */
  datatype Cached = Cached(table: Table, ks: seq<seq<real>>, vs: seq<seq<real>>) {

    /** Every position has a table entry. */
    predicate Valid(blockSize: nat) {
      && blockSize > 0 && |ks| == |vs|
      && (forall t :: 0 <= t < |ks| ==> t / blockSize < |table|)
    }

    /** The next position has one, too. */
    predicate HasRoom(blockSize: nat) {
      Valid(blockSize) && |ks| / blockSize < |table|
    }

    function NextSlot(blockSize: nat): nat
      requires HasRoom(blockSize)
    {
      Slot(blockSize, table, |ks|)
    }

    function Append(key: seq<real>, value: seq<real>): Cached {
      Cached(table, ks + [key], vs + [value])
    }
  }

  /** Every position of the sequence, read through its table, holds its key and value. */
  ghost predicate Stored(l: Layout, s: Cached, kc: seq<real>, vc: seq<real>) {
    && l.Valid() && s.Valid(l.blockSize)
    && (forall t :: 0 <= t < |s.ks| ==> StoredAt(l, kc, vc, Slot(l.blockSize, s.table, t), s.ks[t], s.vs[t]))
  }

  // ----- Writing a batch

  /** No next slot is a slot already in use, and no two are the same. */
  ghost predicate Apart(size: nat, batch: seq<Cached>) {
    && (forall j :: 0 <= j < |batch| ==> batch[j].HasRoom(size))
    && (forall j, k :: 0 <= j < |batch| && 0 <= k < |batch| && j != k ==>
          batch[j].NextSlot(size) != batch[k].NextSlot(size))
    && (forall j, k, t :: 0 <= j < |batch| && 0 <= k < |batch| && 0 <= t < |batch[k].ks| ==>
          Slot(size, batch[k].table, t) != batch[j].NextSlot(size))
  }

  /** A batch of the scheduler: the sequences `ids` with all their tokens but the last in the cache. */
  ghost predicate BatchOf(c: Config, s: State, ids: seq<SeqId>, batch: seq<Cached>) {
    && |batch| == |ids| && NoDup(ids)
    && (forall j :: 0 <= j < |ids| ==>
          && LookupOk(c, s, ids[j]) && batch[j].table == s.engine.tables[ids[j]] && batch[j].HasRoom(c.blockSize)
          && |batch[j].ks| == Len(s.seqs, ids[j]) - 1
          && (forall b :: b in batch[j].table ==> b.dev.Gpu?))
  }

  /** When every write of the batch is unseen, as `Slots.DecodeWriteIff` decides, the batch can be written. */
  lemma UnseenApart(c: Config, s: State, ids: seq<SeqId>, batch: seq<Cached>)
    requires BatchOf(c, s, ids, batch) && (forall j :: 0 <= j < |ids| ==> WriteUnseen(c, s, ids[j]))
    ensures Apart(c.blockSize, batch)
  {
    hide Slot, WriteUnseen, LookupOk;
    forall j, k | 0 <= j < |batch| && 0 <= k < |batch| && j != k
      ensures batch[j].NextSlot(c.blockSize) != batch[k].NextSlot(c.blockSize)
    {
      UnseenAt(c, s, ids, batch, j, k, |batch[k].ks|);
    }
    forall j, k, t | 0 <= j < |batch| && 0 <= k < |batch| && 0 <= t < |batch[k].ks|
      ensures Slot(c.blockSize, batch[k].table, t) != batch[j].NextSlot(c.blockSize)
    {
      UnseenAt(c, s, ids, batch, j, k, t);
    }
  }

  lemma UnseenAt(c: Config, s: State, ids: seq<SeqId>, batch: seq<Cached>, j: nat, k: nat, t: nat)
    requires BatchOf(c, s, ids, batch) && j < |ids| && k < |ids| && WriteUnseen(c, s, ids[j])
    requires t / c.blockSize < |batch[k].table| && t <= |batch[k].ks| && (j == k ==> t < |batch[k].ks|)
    ensures Slot(c.blockSize, batch[k].table, t) != batch[j].NextSlot(c.blockSize)
  {
    hide Slot;
    var b := batch[k].table[t / c.blockSize];
    assert b in batch[k].table;
    if j == k && t / c.blockSize == WrittenEntry(c, s, ids[j]) {
      SameSlotIff(c.blockSize, batch[j].table, |batch[j].ks|, batch[j].table, t);
      SamePartsSame(t, |batch[j].ks|, c.blockSize);
    }
  }

  ghost predicate InCache(blocks: nat, s: Cached) {
    forall b :: b in s.table ==> b.id < blocks
  }

  /** No position of the sequence has a slot that the batch writes. */
  ghost predicate Clear(size: nat, batch: seq<Cached>, s: Cached) {
    && s.Valid(size) && (forall j :: 0 <= j < |batch| ==> batch[j].HasRoom(size))
    && (forall j, t :: 0 <= j < |batch| && 0 <= t < |s.ks| ==> Slot(size, s.table, t) != batch[j].NextSlot(size))
  }

  /** Each sequence gains its token; every other sequence keeps all it has, and no cell of any other slot changes. */
  method WriteBatch(l: Layout, blocks: nat, threads: nat, batch: seq<Cached>, keys: seq<seq<real>>,
                    values: seq<seq<real>>, keyCache: array<real>, valueCache: array<real>)
    requires keyCache != valueCache && Sized(l, blocks, keyCache.Length, valueCache.Length) && threads > 0
    requires |keys| == |values| == |batch| && Apart(l.blockSize, batch)
    requires forall j :: 0 <= j < |batch| ==> |keys[j]| == |values[j]| == l.heads * l.headSize
    requires forall j :: 0 <= j < |batch| ==>
               InCache(blocks, batch[j]) && Stored(l, batch[j], keyCache[..], valueCache[..])
    modifies keyCache, valueCache
    ensures forall j :: 0 <= j < |batch| ==>
              Stored(l, batch[j].Append(keys[j], values[j]), keyCache[..], valueCache[..])
    ensures forall s :: Stored(l, s, old(keyCache[..]), old(valueCache[..])) && InCache(blocks, s)
                        && Clear(l.blockSize, batch, s) ==>
              Stored(l, s, keyCache[..], valueCache[..])
    ensures forall slot: nat, i :: slot < blocks * l.blockSize && 0 <= i < l.heads * l.headSize
                                   && (forall j :: 0 <= j < |batch| ==> slot != batch[j].NextSlot(l.blockSize)) ==>
              && 0 <= KeyWriteIndex(l, slot, i) < keyCache.Length
              && 0 <= ValueWriteIndex(l, slot, i) < valueCache.Length
              && keyCache[KeyWriteIndex(l, slot, i)] == old(keyCache[..])[KeyWriteIndex(l, slot, i)]
              && valueCache[ValueWriteIndex(l, slot, i)] == old(valueCache[..])[ValueWriteIndex(l, slot, i)]
  {
    hide StoredAt, Stored, InCache, Launched, Apart, Clear, KeyWriteIndex, ValueWriteIndex;
    var slots := BatchSlots(l.blockSize, blocks, batch);
    ghost var kc, vc := keyCache[..], valueCache[..];
    Launch(l, blocks, threads, slots, keys, values, keyCache, valueCache);
    forall j | 0 <= j < |batch| ensures Stored(l, batch[j].Append(keys[j], values[j]), keyCache[..], valueCache[..]) {
      Extended(l, blocks, batch, slots, keys, values, kc, vc, keyCache[..], valueCache[..], j);
    }
    forall s | Stored(l, s, kc, vc) && InCache(blocks, s) && Clear(l.blockSize, batch, s)
      ensures Stored(l, s, keyCache[..], valueCache[..])
    {
      KeptByLaunch(l, blocks, batch, slots, keys, values, kc, vc, keyCache[..], valueCache[..], s);
    }
    forall slot: nat, i | slot < blocks * l.blockSize && 0 <= i < l.heads * l.headSize
                          && (forall j :: 0 <= j < |batch| ==> slot != batch[j].NextSlot(l.blockSize))
      ensures 0 <= KeyWriteIndex(l, slot, i) < keyCache.Length && 0 <= ValueWriteIndex(l, slot, i) < valueCache.Length
      ensures keyCache[KeyWriteIndex(l, slot, i)] == kc[KeyWriteIndex(l, slot, i)]
      ensures valueCache[ValueWriteIndex(l, slot, i)] == vc[ValueWriteIndex(l, slot, i)]
    {
      assert slot !in slots;
      CellKept(l, blocks, slots, keys, values, kc, vc, keyCache[..], valueCache[..], slot, i);
    }
  }

  lemma CellKept(l: Layout, blocks: nat, slots: seq<int>, keys: seq<seq<real>>, values: seq<seq<real>>,
                 kc: seq<real>, vc: seq<real>, kc': seq<real>, vc': seq<real>, slot: nat, i: nat)
    requires Launched(l, blocks, slots, keys, values, kc, vc, kc', vc')
    requires slot < blocks * l.blockSize && i < l.heads * l.headSize && slot !in slots
    ensures l.Valid() && |kc| == |kc'| && |vc| == |vc'|
    ensures 0 <= KeyWriteIndex(l, slot, i) < |kc| && kc'[KeyWriteIndex(l, slot, i)] == kc[KeyWriteIndex(l, slot, i)]
    ensures 0 <= ValueWriteIndex(l, slot, i) < |vc|
    ensures vc'[ValueWriteIndex(l, slot, i)] == vc[ValueWriteIndex(l, slot, i)]
  {
    hide KeyWriteIndex, ValueWriteIndex, FromSlot;
  }

  lemma KeptByLaunch(l: Layout, blocks: nat, batch: seq<Cached>, slots: seq<int>, keys: seq<seq<real>>,
                     values: seq<seq<real>>, kc: seq<real>, vc: seq<real>, kc': seq<real>, vc': seq<real>, s: Cached)
    requires |slots| == |batch| && Stored(l, s, kc, vc) && InCache(blocks, s) && Clear(l.blockSize, batch, s)
    requires forall k :: 0 <= k < |batch| ==>
               batch[k].HasRoom(l.blockSize) && slots[k] == batch[k].NextSlot(l.blockSize)
    requires Launched(l, blocks, slots, keys, values, kc, vc, kc', vc')
    ensures Stored(l, s, kc', vc')
  {
    hide Slot, KeyWriteIndex, ValueWriteIndex, InCache, Launched;
    forall t | 0 <= t < |s.ks| ensures StoredAt(l, kc', vc', Slot(l.blockSize, s.table, t), s.ks[t], s.vs[t]) {
      var slot := Slot(l.blockSize, s.table, t);
      SlotBelow(l.blockSize, blocks, s, t);
      assert slot !in slots;
      assert StoredAt(l, kc, vc, slot, s.ks[t], s.vs[t]);
      forall i | 0 <= i < |s.ks[t]|
        ensures |kc'| == |kc| && |vc'| == |vc|
        ensures 0 <= KeyWriteIndex(l, slot, i) < |kc| && kc'[KeyWriteIndex(l, slot, i)] == kc[KeyWriteIndex(l, slot, i)]
        ensures 0 <= ValueWriteIndex(l, slot, i) < |vc|
        ensures vc'[ValueWriteIndex(l, slot, i)] == vc[ValueWriteIndex(l, slot, i)]
      {
        CellKept(l, blocks, slots, keys, values, kc, vc, kc', vc', slot, i);
      }
    }
  }

  /** `slot_mapping` of a decode batch. */
  method BatchSlots(size: nat, blocks: nat, batch: seq<Cached>) returns (slots: seq<int>)
    requires Apart(size, batch) && (forall j :: 0 <= j < |batch| ==> InCache(blocks, batch[j]))
    ensures |slots| == |batch|
    ensures forall j :: 0 <= j < |batch| ==>
              batch[j].HasRoom(size) && 0 <= slots[j] == batch[j].NextSlot(size) < blocks * size
  {
    hide InCache, Slot;
    slots := [];
    while |slots| < |batch|
      invariant |slots| <= |batch|
      invariant forall j :: 0 <= j < |slots| ==> 0 <= slots[j] == batch[j].NextSlot(size) < blocks * size
    {
      var j := |slots|;
      SlotBelow(size, blocks, batch[j], |batch[j].ks|);
      slots := slots + [batch[j].NextSlot(size)];
    }
  }

  method Launch(l: Layout, blocks: nat, threads: nat, slots: seq<int>, keys: seq<seq<real>>, values: seq<seq<real>>,
                keyCache: array<real>, valueCache: array<real>)
    requires keyCache != valueCache && Sized(l, blocks, keyCache.Length, valueCache.Length) && threads > 0
    requires |keys| == |values| == |slots|
    requires forall t :: 0 <= t < |slots| ==>
               |keys[t]| == |values[t]| == l.heads * l.headSize && slots[t] < blocks * l.blockSize
    modifies keyCache, valueCache
    ensures Launched(l, blocks, slots, keys, values, old(keyCache[..]), old(valueCache[..]), keyCache[..],
                     valueCache[..])
  {
    hide KeyWriteIndex, ValueWriteIndex, FromSlot;
    ReshapeAndCache(l, blocks, threads, slots, keys, values, keyCache, valueCache);
  }

  lemma SlotBelow(size: nat, blocks: nat, s: Cached, t: nat)
    requires size > 0 && InCache(blocks, s) && t / size < |s.table|
    ensures Slot(size, s.table, t) < blocks * size
  {
    SlotInRange(size, s.table[t / size].id, t % size, blocks);
  }

  /** What the launch leaves in the cells. */
  ghost predicate Launched(l: Layout, blocks: nat, slots: seq<int>, keys: seq<seq<real>>, values: seq<seq<real>>,
                           kc: seq<real>, vc: seq<real>, kc': seq<real>, vc': seq<real>) {
    && l.Valid() && |kc| == |kc'| && |vc| == |vc'|
    && (forall t, i :: 0 <= t < |slots| && t < |keys| && slots[t] >= 0 && 0 <= i < |keys[t]| ==>
          && 0 <= KeyWriteIndex(l, slots[t], i) < |kc'| && 0 <= ValueWriteIndex(l, slots[t], i) < |vc'|
          && FromSlot(slots, keys, t, i, kc'[KeyWriteIndex(l, slots[t], i)])
          && FromSlot(slots, values, t, i, vc'[ValueWriteIndex(l, slots[t], i)]))
    && (forall slot, i :: 0 <= slot < blocks * l.blockSize && 0 <= i < l.heads * l.headSize && slot !in slots ==>
          && 0 <= KeyWriteIndex(l, slot, i) < |kc| && 0 <= ValueWriteIndex(l, slot, i) < |vc|
          && kc'[KeyWriteIndex(l, slot, i)] == kc[KeyWriteIndex(l, slot, i)]
          && vc'[ValueWriteIndex(l, slot, i)] == vc[ValueWriteIndex(l, slot, i)])
  }

  lemma Extended(l: Layout, blocks: nat, batch: seq<Cached>, slots: seq<int>, keys: seq<seq<real>>,
                 values: seq<seq<real>>, kc: seq<real>, vc: seq<real>, kc': seq<real>, vc': seq<real>, j: nat)
    requires Apart(l.blockSize, batch) && j < |batch| && |slots| == |keys| == |values| == |batch|
    requires forall k :: 0 <= k < |batch| ==>
               batch[k].HasRoom(l.blockSize) && slots[k] == batch[k].NextSlot(l.blockSize)
    requires |keys[j]| == |values[j]| == l.heads * l.headSize && InCache(blocks, batch[j])
    requires Stored(l, batch[j], kc, vc)
    requires Launched(l, blocks, slots, keys, values, kc, vc, kc', vc')
    ensures Stored(l, batch[j].Append(keys[j], values[j]), kc', vc')
  {
    hide Slot, KeyWriteIndex, ValueWriteIndex, InCache, FromSlot;
    var s, n := batch[j], |batch[j].ks|;
    var s' := s.Append(keys[j], values[j]);
    forall t | 0 <= t < n ensures StoredAt(l, kc', vc', Slot(l.blockSize, s'.table, t), s'.ks[t], s'.vs[t]) {
      var slot := Slot(l.blockSize, s.table, t);
      SlotBelow(l.blockSize, blocks, s, t);
      assert slot !in slots;
      assert StoredAt(l, kc, vc, slot, s.ks[t], s.vs[t]);
    }
    forall i | 0 <= i < |keys[j]|
      ensures kc'[KeyWriteIndex(l, slots[j], i)] == keys[j][i] && vc'[ValueWriteIndex(l, slots[j], i)] == values[j][i]
    {
      OnlyOne(slots, keys, j, i, kc'[KeyWriteIndex(l, slots[j], i)]);
      OnlyOne(slots, values, j, i, vc'[ValueWriteIndex(l, slots[j], i)]);
    }
    assert StoredAt(l, kc', vc', Slot(l.blockSize, s'.table, n), keys[j], values[j]);
    assert s'.Valid(l.blockSize);
  }

  // ----- Reading

  /** A cell as the attention kernel reads it; the kernel does not check the bound, the theorems below show it holds. */
  function Cell(cache: seq<real>, index: int): real {
    if 0 <= index < |cache| then cache[index] else 0.0
  }

  /** Element `d` of the key at position `t`; keys are read in vectors of `v` elements. */
  function KeyRead(l: Layout, v: nat, kc: seq<real>, table: Table, head: nat, t: int, d: int): real
    requires l.Valid() && v > 0
  {
    if t < 0 || d < 0 || t / l.blockSize >= |table| then 0.0
    else Cell(kc, KeyReadIndex(l, v, table[t / l.blockSize].id, head, t % l.blockSize, d / v, d % v))
  }

  /** The row of block `b` of the table at offset `o`, as the kernel's value loop reads it. */
  function ValueRead(l: Layout, vc: seq<real>, table: Table, head: nat): Values
    requires l.Valid()
  {
    (b, row, o) => if b < 0 || row < 0 || o < 0 || b >= |table| then 0.0
                   else Cell(vc, ValueReadIndex(l, table[b].id, head, row, o))
  }

  lemma ReadsWhatIsStored(l: Layout, v: nat, s: Cached, kc: seq<real>, vc: seq<real>, head: nat, t: nat, d: nat)
    requires Stored(l, s, kc, vc) && l.headSize % l.x == 0 && v > 0 && l.x % v == 0
    requires head < l.heads && t < |s.ks| && d < l.headSize
    ensures 0 <= head * l.headSize + d < |s.ks[t]| == |s.vs[t]|
    ensures KeyRead(l, v, kc, s.table, head, t, d) == s.ks[t][head * l.headSize + d]
    ensures ValueRead(l, vc, s.table, head)(t / l.blockSize, d, t % l.blockSize) == s.vs[t][head * l.headSize + d]
  {
    hide KeyWriteIndex, ValueWriteIndex, KeyReadIndex, ValueReadIndex, Slot;
    var i, slot := head * l.headSize + d, Slot(l.blockSize, s.table, t);
    assert StoredAt(l, kc, vc, slot, s.ks[t], s.vs[t]);
    ElementBelow(l, head, d);
    ReadAddresses(l, v, s.table, head, t, d);
  }

  lemma ElementBelow(l: Layout, head: nat, d: nat)
    requires head < l.heads && d < l.headSize
    ensures 0 <= head * l.headSize + d < l.heads * l.headSize
  {
    NestBelow(head, d, l.headSize, l.heads);
  }

  lemma ReadAddresses(l: Layout, v: nat, table: Table, head: nat, t: nat, d: nat)
    requires l.Valid() && l.headSize % l.x == 0 && v > 0 && l.x % v == 0 && d < l.headSize && t / l.blockSize < |table|
    ensures var slot, i := Slot(l.blockSize, table, t), head * l.headSize + d;
            && i >= 0
            && KeyReadIndex(l, v, table[t / l.blockSize].id, head, t % l.blockSize, d / v, d % v) ==
               KeyWriteIndex(l, slot, i)
            && ValueReadIndex(l, table[t / l.blockSize].id, head, d, t % l.blockSize) == ValueWriteIndex(l, slot, i)
  {
    hide KeyWriteIndex, ValueWriteIndex, KeyReadIndex, ValueReadIndex;
    var block, slot, i := table[t / l.blockSize].id, Slot(l.blockSize, table, t), head * l.headSize + d;
    assert Nest(d / v, v, d % v) == d;
    KeyReadMeetsWrite(l, v, block, head, t % l.blockSize, d / v, d % v, slot, i);
    ValueReadMeetsWriteIff(l, block, head, d, t % l.blockSize, slot, i);
  }

  // ----- Attention

  function Elementwise(q: seq<real>, k: Term): Term {
    d => if 0 <= d < |q| then q[d] * k(d) else 0.0
  }

  function KeyTerm(l: Layout, v: nat, kc: seq<real>, table: Table, head: nat, t: int): Term
    requires l.Valid() && v > 0
  {
    d => KeyRead(l, v, kc, table, head, t, d)
  }

  /** The score of position `t`, from the key cells. */
  function ScoreRead(l: Layout, v: nat, kc: seq<real>, table: Table, head: nat, q: seq<real>, scale: real): Score
    requires l.Valid() && v > 0
  {
    t => scale * Sum(|q|, Elementwise(q, KeyTerm(l, v, kc, table, head, t)))
  }

  /** The head of a key or value. */
  function HeadOf(l: Layout, k: seq<real>, head: nat): Term {
    d => if 0 <= head * l.headSize + d < |k| then k[head * l.headSize + d] else 0.0
  }

  /** Scores and one row of values from the keys and values themselves. */
  function Given(l: Layout, s: Cached, head: nat, q: seq<real>, scale: real, row: nat): Part
    requires |s.ks| == |s.vs|
  {
    Part(seq(|s.ks|, t requires 0 <= t < |s.ks| => scale * Sum(|q|, Elementwise(q, HeadOf(l, s.ks[t], head)))),
         seq(|s.ks|, t requires 0 <= t < |s.ks| => HeadOf(l, s.vs[t], head)(row)))
  }

  /** What the kernels read is what the sequence was given. */
  lemma ReadIsGiven(l: Layout, v: nat, s: Cached, kc: seq<real>, vc: seq<real>, head: nat, q: seq<real>, scale: real,
                    row: nat)
    requires Stored(l, s, kc, vc) && l.headSize % l.x == 0 && v > 0 && l.x % v == 0
    requires head < l.heads && |q| == l.headSize && row < l.headSize
    ensures Prefix(ScoreRead(l, v, kc, s.table, head, q, scale), ValueRead(l, vc, s.table, head), l.blockSize, row,
                   |s.ks|)
            == Given(l, s, head, q, scale, row)
  {
    hide KeyRead, ValueRead, StoredAt, Sum;
    var qk, vals := ScoreRead(l, v, kc, s.table, head, q, scale), ValueRead(l, vc, s.table, head);
    var given := Given(l, s, head, q, scale, row);
    forall t | 0 <= t < |s.ks| ensures qk(t) == given.xs[t] && ValueAt(vals, l.blockSize, row, t) == given.vs[t] {
      var k, k' := KeyTerm(l, v, kc, s.table, head, t), HeadOf(l, s.ks[t], head);
      forall d | 0 <= d < |q| ensures Elementwise(q, k)(d) == Elementwise(q, k')(d) {
        ReadsWhatIsStored(l, v, s, kc, vc, head, t, d);
      }
      SumCongruence(|q|, Elementwise(q, k), Elementwise(q, k'));
      ReadsWhatIsStored(l, v, s, kc, vc, head, t, row);
      assert HeadOf(l, s.vs[t], head)(row) == s.vs[t][head * l.headSize + row];
      assert ValueAt(vals, l.blockSize, row, t) == vals(t / l.blockSize, row, t % l.blockSize);
    }
    var p := Prefix(qk, vals, l.blockSize, row, |s.ks|);
    assert p.xs == given.xs && p.vs == given.vs;
  }

  /** Both attention kernels on the cache, for one head and one row: the softmax over the sequence's keys and values. */
  method AttendCached(exp: real -> real, eps: real, ls: Lanes, size: nat, l: Layout, v: nat, s: Cached, head: nat,
                      q: seq<real>, scale: real, floor: real, row: nat, keyCache: array<real>, valueCache: array<real>,
                      logits: array<real>)
    returns (out: real)
    requires IsExp(exp) && eps >= 0.0 && ls.Valid() && Powers(ls.grid) && ls.grid.blockSize == l.blockSize
    requires size > 0 && size % l.blockSize == 0 && logits.Length >= size && logits != keyCache && logits != valueCache
    requires Stored(l, s, keyCache[..], valueCache[..]) && s.ks != []
    requires l.headSize % l.x == 0 && v > 0 && l.x % v == 0 && head < l.heads && |q| == l.headSize && row < l.headSize
    requires forall x :: x in Given(l, s, head, q, scale, row).xs ==> floor <= x
    modifies logits
    ensures Approximates(exp, eps, Given(l, s, head, q, scale, row), out)
  {
    hide IsExp, StoredAt, Lanes.Valid, Powers, Approximates, KeyRead, ValueRead, Softmax;
    var kc, vc := keyCache[..], valueCache[..];
    var qk, vals := ScoreRead(l, v, kc, s.table, head, q, scale), ValueRead(l, vc, s.table, head);
    ReadIsGiven(l, v, s, kc, vc, head, q, scale, row);
    ghost var given := Given(l, s, head, q, scale, row);
    forall t | 0 <= t < |s.ks| ensures floor <= qk(t) {
      assert given.xs[t] == qk(t);
      assert given.xs[t] in given.xs;
    }
    out := AttendContext(exp, eps, ls, size, |s.ks|, qk, vals, floor, l.headSize, row, logits);
  }
}
