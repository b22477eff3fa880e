/**
 The swap-in loop gives a group its blocks and then its slots. Its guard asks only for the sum of the table lengths:
 here is what the two take from the GPU pool, for groups of any size and any sharing.
 */
module SwapInRoom {
  import opened Outcomes
  import opened Pools
  import opened Engine
  import opened EngineLaws
  import opened AppendLaws
  import opened GroupCounts
  import opened StepInvariant
  import opened Scheduler
  import opened ScheduleSafety

  // ----- What a swap takes

  lemma MapBlockTakes(p: Pools, to: Device, mapping: map<nat, Block>, b: Block)
    requires MapBlock(p, to, mapping, b).Done?
    ensures var (q, mapping', _) := MapBlock(p, to, mapping, b).value;
            |mapping'| - |mapping| == |p.FreeList(to)| - |q.FreeList(to)|
  {
    if b.id !in mapping {
      var (q, mapping', c) := MapBlock(p, to, mapping, b).value;
      assert mapping'.Keys == mapping.Keys + {b.id};
      assert |mapping'.Keys| == |mapping'| && |mapping.Keys| == |mapping|;
    }
  }

  lemma {:induction false} MoveTableTakes(p: Pools, table: Table, to: Device, from: Device, mapping: map<nat, Block>)
    requires to != from && MoveTable(p, table, to, from, mapping).Done?
    ensures var (q, mapping', _) := MoveTable(p, table, to, from, mapping).value;
            |mapping'| - |mapping| == |p.FreeList(to)| - |q.FreeList(to)|
    decreases |table|
  {
    hide MapBlock;
    if table != [] {
      MapBlockTakes(p, to, mapping, table[0]);
      var (q, mapping1, c) := MapBlock(p, to, mapping, table[0]).value;
      var q' := Release(q, from, table[0]).value;
      assert q'.FreeList(to) == q.FreeList(to);
      MoveTableTakes(q', table[1..], to, from, mapping1);
    }
  }

  /** A move takes one block for every entry it adds to its map. */
  lemma {:induction false} MoveGroupTakes(e: Engine, ids: seq<SeqId>, to: Device, from: Device,
                                          mapping: map<nat, Block>)
    requires to != from && MoveGroup(e, ids, to, from, mapping).Done?
    ensures var (e', mapping') := MoveGroup(e, ids, to, from, mapping).value;
            |mapping'| - |mapping| == |e.pools.FreeList(to)| - |e'.pools.FreeList(to)|
    decreases |ids|
  {
    hide MoveTable;
    if ids != [] {
      MoveTableTakes(e.pools, e.tables[ids[0]], to, from, mapping);
      var (p, mapping1, table) := MoveTable(e.pools, e.tables[ids[0]], to, from, mapping).value;
      MoveGroupTakes(Engine(p, e.tables[ids[0] := table]), ids[1..], to, from, mapping1);
    }
  }

  /** A swap-in takes as many GPU blocks as the group has different blocks. */
  lemma SwapInTakes(e: Engine, ids: seq<SeqId>) returns (mapping: map<nat, Block>)
    requires Consistent(e) && NoDup(ids) && CanSwapIn(e, ids)
    requires forall s :: s in ids ==> s in e.tables
    requires forall s, b :: s in ids && b in e.tables[s] ==> b.dev == Cpu
    ensures SwapIn(e, ids).Done?
    ensures var e' := SwapIn(e, ids).value.0;
            && Consistent(e') && mapping.Keys == GroupBlockIds(e.tables, ids)
            && InjectiveTo(mapping, Gpu) && Moved(e.tables, ids, mapping, e'.tables)
            && (forall k :: k in mapping ==> mapping[k] !in References(e.tables))
            && |e'.pools.gpuFree| == |e.pools.gpuFree| - |GroupBlockIds(e.tables, ids)|
  {
    hide Consistent, InjectiveTo, Moved, References, GroupBlockIds, NoDup, TotalLength;
    MoveGroupLaw(e, ids, Gpu, Cpu, map[]) by { NoMapping(e); }
    mapping := MoveGroup(e, ids, Gpu, Cpu, map[]).value.1;
    MoveGroupTakes(e, ids, Gpu, Cpu, map[]);
    NewlyMapped(mapping, References(e.tables));
    assert |mapping.Keys| == |mapping|;
  }

  lemma NoMapping(e: Engine)
    ensures InjectiveTo(map[], Gpu)
  {
  }

  lemma NewlyMapped(mapping: map<nat, Block>, m: multiset<Block>)
    ensures Extends(map[], mapping, m) ==> forall k :: k in mapping ==> mapping[k] !in m
  {
  }

  // ----- The blocks that need no copy

  /** The open last blocks of a group that only its open ends refer to. */
  ghost function KeptLasts(tables: Tables, ids: seq<SeqId>, full: set<SeqId>): set<Block> {
    set b | b in OpenLasts(tables, ids, full) && Occurrences(tables, ids, b) == OpenCount(tables, ids, full, b)
  }

  lemma OwnedAreKept(e: Engine, ids: seq<SeqId>, full: set<SeqId>)
    requires NoDup(ids) && Closed(e.tables, ids)
    ensures OwnedLasts(e, ids, full) == KeptLasts(e.tables, ids, full)
  {
    hide NoDup, References, Occurrences, OpenCount;
    forall b | b in OpenLasts(e.tables, ids, full) ensures References(e.tables)[b] == Occurrences(e.tables, ids, b) {
      var s :| s in ids && s in e.tables && b in e.tables[s];
      AllReferencesInGroup(e.tables, ids, b);
    }
  }

  lemma {:induction false} ImageSize(a: set<Block>, mapping: map<nat, Block>, d: Device, to: Device)
    requires InjectiveTo(mapping, to) && (forall b :: b in a ==> b.dev == d && b.id in mapping)
    ensures |set b | b in a :: mapping[b.id]| == |a|
    decreases |a|
  {
    var image := set b | b in a :: mapping[b.id];
    if a == {} {
      assert image == {};
    } else {
      var x :| x in a;
      var rest := a - {x};
      ImageSize(rest, mapping, d, to);
      var image' := set b | b in rest :: mapping[b.id];
      assert mapping[x.id] !in image';
      assert image == image' + {mapping[x.id]};
    }
  }

  /** A swap keeps the number of such blocks. */
  lemma KeptAreMoved(tables: Tables, ids: seq<SeqId>, mapping: map<nat, Block>, tables': Tables, full: set<SeqId>)
    requires Moved(tables, ids, mapping, tables') && InjectiveTo(mapping, Gpu)
    requires forall s :: s in ids ==> s in tables
    requires forall s, b :: s in ids && b in tables[s] ==> b.dev == Cpu
    ensures |KeptLasts(tables', ids, full)| == |KeptLasts(tables, ids, full)|
  {
    hide InjectiveTo, Occurrences, OpenCount;
    var kept := KeptLasts(tables, ids, full);
    forall b | b in OpenLasts(tables, ids, full) ensures b.dev == Cpu && b.id in mapping {
      LastMapped(tables, ids, mapping, tables', full, b);
    }
    ImageSize(kept, mapping, Cpu, Gpu);
    forall c ensures c in KeptLasts(tables', ids, full) <==> exists b :: b in kept && mapping[b.id] == c {
      if c in KeptLasts(tables', ids, full) {
        var s :| s in ids && s !in full && s in tables' && tables'[s] != [] && Last(tables'[s]) == c;
        assert Renamed(tables[s], mapping, tables'[s]);
        var b := Last(tables[s]);
        assert b in OpenLasts(tables, ids, full);
        RenamedCounts(tables, ids, mapping, tables', full, Cpu, Gpu, b, ids);
        assert b in kept && mapping[b.id] == c;
      }
      if b :| b in kept && mapping[b.id] == c {
        LastMapped(tables, ids, mapping, tables', full, b);
        RenamedCounts(tables, ids, mapping, tables', full, Cpu, Gpu, b, ids);
      }
    }
    assert KeptLasts(tables', ids, full) == set b | b in kept :: mapping[b.id];
  }

  lemma LastMapped(tables: Tables, ids: seq<SeqId>, mapping: map<nat, Block>, tables': Tables, full: set<SeqId>,
                   b: Block)
    requires Moved(tables, ids, mapping, tables') && b in OpenLasts(tables, ids, full)
    requires forall s, c :: s in ids && s in tables && c in tables[s] ==> c.dev == Cpu
    ensures b.dev == Cpu && b.id in mapping && mapping[b.id] in OpenLasts(tables', ids, full)
  {
    var s :| s in ids && s !in full && s in tables && tables[s] != [] && Last(tables[s]) == b;
    assert Renamed(tables[s], mapping, tables'[s]);
    assert b in tables[s];
    assert Last(tables'[s]) == mapping[b.id];
  }

  // ----- One turn of the loop

  /** Every sequence that will get no new block has a last block to write to. */
  ghost predicate OpenEnds(tables: Tables, ids: seq<SeqId>, full: set<SeqId>) {
    forall s :: s in ids && s in tables && s !in full ==> tables[s] != []
  }

  /**
   Under the guard the swap-in never panics; the appends after it succeed exactly when the GPU pool has a block for
   every different block of the group and one for every sequence, less one for every last block that only open ends
   share.
   */
  lemma SwapInThenAppendIff(e: Engine, ids: seq<SeqId>, full: set<SeqId>, copies: map<nat, seq<nat>>)
    requires Consistent(e) && NoDup(ids) && CanSwapIn(e, ids)
    requires forall s :: s in ids ==> s in e.tables
    requires forall s, b :: s in ids && b in e.tables[s] ==> b.dev == Cpu
    ensures SwapIn(e, ids).Done?
    ensures AppendGroup(SwapIn(e, ids).value.0, ids, full, copies).Done? <==>
            && OpenEnds(e.tables, ids, full)
            && |GroupBlockIds(e.tables, ids)| + |ids| - |KeptLasts(e.tables, ids, full)| <= |e.pools.gpuFree|
  {
    hide Consistent, InjectiveTo, References, GroupBlockIds, NoDup, SwapIn, CanSwapIn, KeptLasts, OwnedLasts,
         AppendGroup;
    var mapping := SwapInTakes(e, ids);
    var e1 := SwapIn(e, ids).value.0;
    AppendGroupIff(e1, ids, full, copies);
    ClosedAfterSwap(e, ids, mapping, e1);
    OwnedAreKept(e1, ids, full);
    KeptAreMoved(e.tables, ids, mapping, e1.tables, full);
    PlacedAfterSwap(e, ids, mapping, e1, full);
  }

  lemma PlacedAfterSwap(e: Engine, ids: seq<SeqId>, mapping: map<nat, Block>, e1: Engine, full: set<SeqId>)
    requires InjectiveTo(mapping, Gpu) && Moved(e.tables, ids, mapping, e1.tables)
    requires forall s :: s in ids ==> s in e.tables
    ensures Appendable(e1, ids, full) <==> OpenEnds(e.tables, ids, full)
  {
    forall s | s in ids
      ensures s in e1.tables && (e1.tables[s] != [] <==> e.tables[s] != [])
      ensures e1.tables[s] != [] ==> Last(e1.tables[s]).dev.Gpu?
    {
      assert Renamed(e.tables[s], mapping, e1.tables[s]);
    }
  }

  lemma ClosedAfterSwap(e: Engine, ids: seq<SeqId>, mapping: map<nat, Block>, e1: Engine)
    requires Moved(e.tables, ids, mapping, e1.tables) && Consistent(e)
    requires forall s :: s in ids ==> s in e.tables
    requires forall k :: k in mapping ==> mapping[k] !in References(e.tables)
    ensures Closed(e1.tables, ids)
  {
    hide Consistent, References;
    forall s, t, b | s in ids && t in e1.tables && b in e1.tables[s] && b in e1.tables[t] ensures t in ids {
      assert Renamed(e.tables[s], mapping, e1.tables[s]);
      var i :| 0 <= i < |e1.tables[s]| && e1.tables[s][i] == b;
      assert b == mapping[e.tables[s][i].id];
      if t !in ids {
        TableBlockLive(e, t, b);
      }
    }
  }

  /** The same for the first group of the swap-in loop in any valid state: when the turn panics. */
  lemma SwapInTurnIff(c: Config, own: Owner, s: State, ops: Ops)
    requires SchedulerOk(own, s) && s.swappedOut != [] && CanSwapIn(s.engine, s.swappedOut[0].seqs)
    ensures var g, full := s.swappedOut[0], FullSeqs(c, s.seqs);
            && SwapIn(s.engine, g.seqs).Done?
            && (AppendGroup(SwapIn(s.engine, g.seqs).value.0, g.seqs, full, ops.copies).Done? <==>
                && OpenEnds(s.engine.tables, g.seqs, full)
                && |GroupBlockIds(s.engine.tables, g.seqs)| + |g.seqs| - |KeptLasts(s.engine.tables, g.seqs, full)|
                   <= |s.engine.pools.gpuFree|)
  {
    hide Consistent, CanSwapIn, SwapIn, AppendGroup, KeptLasts, GroupBlockIds, NoSharing, FullSeqs;
    var g := s.swappedOut[0];
    assert g in s.swappedOut && g.id in Ids(s.swappedOut) && GroupOk(own, g);
    SwapInThenAppendIff(s.engine, g.seqs, FullSeqs(c, s.seqs), ops.copies);
  }
}
