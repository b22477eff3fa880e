/** The write kernel: one thread block per token, threads stepping through the elements with a stride. */
module CacheWrite {
  import opened Arithmetic
  import opened Strides
  import opened Addressing

  /** The caches are big enough for `blocks` blocks. */
  ghost predicate Sized(l: Layout, blocks: nat, keyCells: nat, valueCells: nat) {
    && l.Valid() && l.headSize % l.x == 0
    && keyCells == blocks * l.heads * (l.headSize / l.x) * l.blockSize * l.x
    && valueCells == blocks * l.heads * l.headSize * l.blockSize
  }

  /** One thread block: writes all elements of one token at `slot`. */
  method WriteToken<D>(l: Layout, blocks: nat, threads: nat, slot: nat, key: seq<D>, value: seq<D>,
                       keyCache: array<D>, valueCache: array<D>)
    requires keyCache != valueCache && Sized(l, blocks, keyCache.Length, valueCache.Length) && threads > 0
    requires slot < blocks * l.blockSize && |key| == |value| == l.heads * l.headSize
    modifies keyCache, valueCache
    ensures forall i :: 0 <= i < |key| ==>
              0 <= KeyWriteIndex(l, slot, i) < keyCache.Length && keyCache[KeyWriteIndex(l, slot, i)] == key[i]
    ensures forall i :: 0 <= i < |value| ==>
              0 <= ValueWriteIndex(l, slot, i) < valueCache.Length
              && valueCache[ValueWriteIndex(l, slot, i)] == value[i]
    ensures forall a :: 0 <= a < keyCache.Length && (forall i :: 0 <= i < |key| ==> KeyWriteIndex(l, slot, i) != a) ==>
              keyCache[a] == old(keyCache[a])
    ensures forall a :: 0 <= a < valueCache.Length
                        && (forall i :: 0 <= i < |value| ==> ValueWriteIndex(l, slot, i) != a) ==>
              valueCache[a] == old(valueCache[a])
  {
    hide KeyWriteIndex, ValueWriteIndex, Handled;
    var n := |key|;
    forall i | 0 <= i < n
      ensures 0 <= KeyWriteIndex(l, slot, i) < keyCache.Length && 0 <= ValueWriteIndex(l, slot, i) < valueCache.Length
    {
      WritesInRange(l, blocks, slot, i);
    }
    forall i, j | 0 <= i < n && 0 <= j < n && i != j
      ensures KeyWriteIndex(l, slot, i) != KeyWriteIndex(l, slot, j)
      ensures ValueWriteIndex(l, slot, i) != ValueWriteIndex(l, slot, j)
    {
      WritesDistinct(l, slot, i, slot, j);
    }
    var thread := 0;
    NoneHandled(threads);
    while thread < threads
      invariant thread <= threads
      invariant forall i :: 0 <= i < n && Handled(i, threads, thread, thread) ==>
                  keyCache[KeyWriteIndex(l, slot, i)] == key[i] && valueCache[ValueWriteIndex(l, slot, i)] == value[i]
      invariant forall a :: 0 <= a < keyCache.Length && (forall i :: 0 <= i < n ==> KeyWriteIndex(l, slot, i) != a) ==>
                  keyCache[a] == old(keyCache[a])
      invariant forall a :: 0 <= a < valueCache.Length
                            && (forall i :: 0 <= i < n ==> ValueWriteIndex(l, slot, i) != a) ==>
                  valueCache[a] == old(valueCache[a])
    {
      var at := thread;
      QuotientUnique(thread, threads, 0, thread);
      while at < n
        invariant at % threads == thread
        invariant forall i :: 0 <= i < n && Handled(i, threads, thread, at) ==>
                    keyCache[KeyWriteIndex(l, slot, i)] == key[i] && valueCache[ValueWriteIndex(l, slot, i)] == value[i]
        invariant forall a :: 0 <= a < keyCache.Length
                              && (forall i :: 0 <= i < n ==> KeyWriteIndex(l, slot, i) != a) ==>
                    keyCache[a] == old(keyCache[a])
        invariant forall a :: 0 <= a < valueCache.Length
                              && (forall i :: 0 <= i < n ==> ValueWriteIndex(l, slot, i) != a) ==>
                    valueCache[a] == old(valueCache[a])
        decreases n - at
      {
        keyCache[KeyWriteIndex(l, slot, at)] := key[at];
        valueCache[ValueWriteIndex(l, slot, at)] := value[at];
        forall i: nat
          ensures Handled(i, threads, thread, at + threads) <==> Handled(i, threads, thread, at) || i == at
        {
          NextHandled(i, threads, thread, at);
        }
        NextHandled(at, threads, thread, at);
        at := at + threads;
      }
      forall i: nat | i < n ensures Handled(i, threads, thread + 1, thread + 1) ==> Handled(i, threads, thread, at) {
        NextThread(i, threads, thread, at);
      }
      thread := thread + 1;
    }
    forall i: nat ensures Handled(i, threads, threads, threads) {
      AllHandled(i, threads);
    }
  }

  /** `x` is element `i` of some token written to the slot of token `t`. */
  ghost predicate FromSlot<D(!new)>(slots: seq<int>, data: seq<seq<D>>, t: nat, i: nat, x: D) {
    exists u :: 0 <= u < |slots| && u < |data| && i < |data[u]| && t < |slots| && slots[u] == slots[t]
                && data[u][i] == x
  }

  /**
   The whole launch: tokens with a negative slot are padding and leave the caches alone; the cells of every other
   token's slot hold the elements of a token written there, which is this one if the slot is not repeated; no other
   cell changes.
   */
  method ReshapeAndCache<D(!new)>(l: Layout, blocks: nat, threads: nat, slots: seq<int>, keys: seq<seq<D>>,
                                  values: seq<seq<D>>, keyCache: array<D>, valueCache: array<D>)
    requires keyCache != valueCache && Sized(l, blocks, keyCache.Length, valueCache.Length) && threads > 0
    requires |keys| == |values| == |slots|
    requires forall t :: 0 <= t < |slots| ==>
               |keys[t]| == |values[t]| == l.heads * l.headSize && slots[t] < blocks * l.blockSize
    modifies keyCache, valueCache
    ensures forall t, i :: 0 <= t < |slots| && slots[t] >= 0 && 0 <= i < |keys[t]| ==>
              && 0 <= KeyWriteIndex(l, slots[t], i) < keyCache.Length
              && 0 <= ValueWriteIndex(l, slots[t], i) < valueCache.Length
              && FromSlot(slots, keys, t, i, keyCache[KeyWriteIndex(l, slots[t], i)])
              && FromSlot(slots, values, t, i, valueCache[ValueWriteIndex(l, slots[t], i)])
    ensures forall slot, i :: 0 <= slot < blocks * l.blockSize && 0 <= i < l.heads * l.headSize && slot !in slots ==>
              && 0 <= KeyWriteIndex(l, slot, i) < keyCache.Length
              && 0 <= ValueWriteIndex(l, slot, i) < valueCache.Length
              && keyCache[KeyWriteIndex(l, slot, i)] == old(keyCache[KeyWriteIndex(l, slot, i)])
              && valueCache[ValueWriteIndex(l, slot, i)] == old(valueCache[ValueWriteIndex(l, slot, i)])
  {
    hide KeyWriteIndex, ValueWriteIndex, FromSlot;
    var n := l.heads * l.headSize;
    forall slot: nat, i | slot < blocks * l.blockSize && 0 <= i < n
      ensures 0 <= KeyWriteIndex(l, slot, i) < keyCache.Length && 0 <= ValueWriteIndex(l, slot, i) < valueCache.Length
    {
      WritesInRange(l, blocks, slot, i);
    }
    forall slot: nat, i, slot': nat, j | 0 <= i < n && 0 <= j < n && slot != slot'
      ensures KeyWriteIndex(l, slot, i) != KeyWriteIndex(l, slot', j)
      ensures ValueWriteIndex(l, slot, i) != ValueWriteIndex(l, slot', j)
    {
      WritesDistinct(l, slot, i, slot', j);
    }
    var t := 0;
    while t < |slots|
      invariant t <= |slots|
      invariant forall u, i :: 0 <= u < t && slots[u] >= 0 && 0 <= i < n ==>
                  && FromSlot(slots, keys, u, i, keyCache[KeyWriteIndex(l, slots[u], i)])
                  && FromSlot(slots, values, u, i, valueCache[ValueWriteIndex(l, slots[u], i)])
      invariant forall slot, i :: 0 <= slot < blocks * l.blockSize && 0 <= i < n && slot !in slots ==>
                  && keyCache[KeyWriteIndex(l, slot, i)] == old(keyCache[KeyWriteIndex(l, slot, i)])
                  && valueCache[ValueWriteIndex(l, slot, i)] == old(valueCache[ValueWriteIndex(l, slot, i)])
    {
      if slots[t] >= 0 {
        assert slots[t] in slots;
        WriteToken(l, blocks, threads, slots[t], keys[t], values[t], keyCache, valueCache);
        forall u, i | 0 <= u <= t && slots[u] == slots[t] && 0 <= i < n
          ensures FromSlot(slots, keys, u, i, keyCache[KeyWriteIndex(l, slots[u], i)])
          ensures FromSlot(slots, values, u, i, valueCache[ValueWriteIndex(l, slots[u], i)])
        {
          ItsOwn(slots, keys, u, i, t);
          ItsOwn(slots, values, u, i, t);
        }
      }
      t := t + 1;
    }
  }

  lemma ItsOwn<D(!new)>(slots: seq<int>, data: seq<seq<D>>, t: nat, i: nat, u: nat)
    requires u < |slots| && u < |data| && i < |data[u]| && t < |slots| && slots[u] == slots[t]
    ensures FromSlot(slots, data, t, i, data[u][i])
  {
  }

  /** A slot that is not repeated holds its token. */
  lemma OnlyOne<D(!new)>(slots: seq<int>, data: seq<seq<D>>, t: nat, i: nat, x: D)
    requires FromSlot(slots, data, t, i, x) && (forall u :: 0 <= u < |slots| && u != t ==> slots[u] != slots[t])
    ensures t < |data| && i < |data[t]| && x == data[t][i]
  {
  }
}
