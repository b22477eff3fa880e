/** `swap_in` as written takes new blocks from the CPU pool and returns CPU blocks to the GPU pool. */
module SwapInDefect {
  import opened Outcomes
  import opened Pools
  import opened Engine
  import opened GroupCounts

  /** The state of one CPU block during the move: `count` references left, not free in the CPU pool, not reused. */
  ghost predicate Tracked(p: Pools, mapping: map<nat, Block>, b: Block, count: nat) {
    && b in p.refs && p.refs[b] == count && b !in p.cpuFree
    && (forall k :: k in mapping ==> mapping[k] != b)
  }

  lemma MapBlockTracked(p: Pools, mapping: map<nat, Block>, b: Block, count: nat, x: Block)
    requires Tracked(p, mapping, b, count)
    requires MapBlock(p, Cpu, mapping, x).Done?
    ensures var (q, mapping', c) := MapBlock(p, Cpu, mapping, x).value;
            Tracked(q, mapping', b, count) && q.gpuFree == p.gpuFree
  {
  }

  lemma ReleaseTracked(p: Pools, mapping: map<nat, Block>, b: Block, count: nat, x: Block)
    requires Tracked(p, mapping, b, count) && (x == b ==> count > 0)
    requires Release(p, Gpu, x).Done?
    ensures var q := Release(p, Gpu, x).value;
            && Tracked(q, mapping, b, if x == b then count - 1 else count)
            && (x == b && count == 1 ==> b in q.gpuFree)
            && (b in p.gpuFree ==> b in q.gpuFree)
  {
  }

  lemma {:induction false} MoveTableMisfiles(p: Pools, table: Table, mapping: map<nat, Block>, b: Block, later: nat)
    requires Tracked(p, mapping, b, multiset(table)[b] + later)
    requires MoveTable(p, table, Cpu, Gpu, mapping).Done?
    ensures var (q, mapping', moved) := MoveTable(p, table, Cpu, Gpu, mapping).value;
            && Tracked(q, mapping', b, later)
            && (later == 0 && b in table ==> b in q.gpuFree)
            && (b in p.gpuFree ==> b in q.gpuFree)
    decreases |table|
  {
    hide MapBlock, Release, Tracked;
    if table != [] {
      var x, rest := table[0], table[1..];
      assert table == [x] + rest;
      var n := multiset(table)[b] + later;
      MapBlockTracked(p, mapping, b, n, x);
      var (q, mapping1, c) := MapBlock(p, Cpu, mapping, x).value;
      ReleaseTracked(q, mapping1, b, n, x);
      MoveTableMisfiles(Release(q, Gpu, x).value, rest, mapping1, b, later);
    }
  }

  lemma {:induction false} MoveGroupMisfiles(e: Engine, ids: seq<SeqId>, mapping: map<nat, Block>, b: Block)
    requires NoDup(ids)
    requires Tracked(e.pools, mapping, b, Occurrences(e.tables, ids, b))
    requires MoveGroup(e, ids, Cpu, Gpu, mapping).Done?
    ensures var (e', mapping') := MoveGroup(e, ids, Cpu, Gpu, mapping).value;
            Occurrences(e.tables, ids, b) > 0 || b in e.pools.gpuFree ==> b in e'.pools.gpuFree
    decreases |ids|
  {
    hide MoveTable, NoDup, Tracked;
    if ids != [] {
      NoDupTail(ids);
      var s := ids[0];
      MoveTableMisfiles(e.pools, e.tables[s], mapping, b, Occurrences(e.tables, ids[1..], b));
      var (p, mapping1, moved) := MoveTable(e.pools, e.tables[s], Cpu, Gpu, mapping).value;
      OccurrencesUpdate(e.tables, ids[1..], b, s, moved);
      MoveGroupMisfiles(Engine(p, e.tables[s := moved]), ids[1..], mapping1, b);
    }
  }

  lemma {:induction false} MoveNoBlocks(e: Engine, ids: seq<SeqId>, to: Device, from: Device, mapping: map<nat, Block>)
    requires forall s :: s in ids ==> s in e.tables && e.tables[s] == []
    ensures MoveGroup(e, ids, to, from, mapping) == Done((e, mapping))
    decreases |ids|
  {
    if ids != [] {
      assert e.tables[ids[0] := []] == e.tables;
      assert MoveTable(e.pools, [], to, from, mapping) == Done((e.pools, mapping, []));
      MoveNoBlocks(e, ids[1..], to, from, mapping);
    }
  }

  /**
   For a swapped-out group that shares blocks with no other sequence, `swap_in` as written neither panics
   nor corrupts the pools exactly when the group holds no block at all.
   */
  lemma SwapInAsWrittenIff(e: Engine, ids: seq<SeqId>)
    requires Consistent(e) && NoDup(ids) && (forall s :: s in ids ==> s in e.tables)
    requires forall s, b :: s in ids && b in e.tables[s] ==> b.dev.Cpu?
    requires forall s, t, b :: s in ids && t in e.tables && b in e.tables[s] && b in e.tables[t] ==> t in ids
    ensures SwapInAsWritten(e, ids).Done? && Consistent(SwapInAsWritten(e, ids).value.0) <==>
            forall s :: s in ids ==> e.tables[s] == []
  {
    if forall s :: s in ids ==> e.tables[s] == [] {
      MoveNoBlocks(e, ids, Cpu, Gpu, map[]);
    } else if SwapInAsWritten(e, ids).Done? {
      var s :| s in ids && e.tables[s] != [];
      var b := e.tables[s][0];
      AllReferencesInGroup(e.tables, ids, b);
      TableBlockLive(e, s, b);
      OccursSomewhere(e.tables, ids, s, b);
      MoveGroupMisfiles(e, ids, map[], b);
      assert b in SwapInAsWritten(e, ids).value.0.pools.gpuFree;
      assert !FreeListOk(SwapInAsWritten(e, ids).value.0.pools, Gpu);
    }
  }
}
