/** The block engine as the object the source has: fields updated in place by loops. */
module EngineMachine {
  import opened Outcomes
  import opened Pools
  import Engine

  type SeqId = Engine.SeqId
  type Table = Engine.Table

  /** The outcome of moving a table whose first blocks, `moved`, have been moved already. */
  function Prepend(moved: Table,
                   rest: Outcome<(Pools, map<nat, Block>, Table)>): Outcome<(Pools, map<nat, Block>, Table)> {
    match rest
    case Panic => Panic
    case Done((p, mapping, table)) => Done((p, mapping, moved + table))
  }

  lemma PrependNothing(rest: Outcome<(Pools, map<nat, Block>, Table)>)
    ensures Prepend([], rest) == rest
  {
    if rest.Done? {
      assert [] + rest.value.2 == rest.value.2;
    }
  }

  lemma PrependTwice(moved: Table, c: Block, rest: Outcome<(Pools, map<nat, Block>, Table)>)
    ensures Prepend(moved, Prepend([c], rest)) == Prepend(moved + [c], rest)
  {
    if rest.Done? {
      assert moved + ([c] + rest.value.2) == moved + [c] + rest.value.2;
    }
  }

  class BlockEngine {
    var gpuFree: seq<Block>
    var cpuFree: seq<Block>
    var refcounts: map<Block, nat>
    var blockTables: map<SeqId, Table>

    function PoolState(): Pools
      reads this
    {
      Pools(gpuFree, cpuFree, refcounts)
    }

    function State(): Engine.Engine
      reads this
    {
      Engine.Engine(PoolState(), blockTables)
    }

    constructor (numGpuBlocks: nat, numCpuBlocks: nat)
      ensures State() == Engine.Engine(NewPools(numGpuBlocks, numCpuBlocks), map[])
    {
      gpuFree, cpuFree := [], [];
      refcounts, blockTables := map[], map[];
      new;
      var gpu, cpu := 0, 0;
      while gpu < numGpuBlocks
        invariant gpu <= numGpuBlocks && blockTables == map[] && cpuFree == []
        invariant gpuFree == Fresh(Gpu, gpu) && refcounts == NewPools(gpu, 0).refs
      {
        gpuFree := gpuFree + [Block(Gpu, gpu)];
        refcounts := refcounts[Block(Gpu, gpu) := 0];
        gpu := gpu + 1;
        assert gpuFree == Fresh(Gpu, gpu);
      }
      while cpu < numCpuBlocks
        invariant cpu <= numCpuBlocks && blockTables == map[] && gpuFree == Fresh(Gpu, numGpuBlocks)
        invariant cpuFree == Fresh(Cpu, cpu) && refcounts == NewPools(numGpuBlocks, cpu).refs
      {
        cpuFree := cpuFree + [Block(Cpu, cpu)];
        refcounts := refcounts[Block(Cpu, cpu) := 0];
        cpu := cpu + 1;
        assert cpuFree == Fresh(Cpu, cpu);
      }
    }

    /** `Allocator::allocate`. */
    method AllocateBlock(d: Device) returns (r: Outcome<Block>)
      modifies this
      ensures Alloc(old(PoolState()), d).Panic? <==> r.Panic?
      ensures r.Done? ==> Alloc(old(PoolState()), d) == Done((PoolState(), r.value)) && blockTables == old(blockTables)
    {
      var list := if d.Gpu? then gpuFree else cpuFree;
      if list == [] {
        return Panic;
      }
      var b := list[|list| - 1];
      if d.Gpu? {
        gpuFree := list[..|list| - 1];
      } else {
        cpuFree := list[..|list| - 1];
      }
      refcounts := refcounts[b := 1];
      r := Done(b);
    }

    /** `Allocator::free_block` of pool `d`. */
    method FreeBlock(d: Device, b: Block) returns (ok: bool)
      modifies this
      ensures ok <==> Release(old(PoolState()), d, b).Done?
      ensures ok ==> Release(old(PoolState()), d, b) == Done(PoolState()) && blockTables == old(blockTables)
    {
      if b !in refcounts || refcounts[b] == 0 {
        return false;
      }
      refcounts := refcounts[b := refcounts[b] - 1];
      if refcounts[b] == 0 {
        if d.Gpu? {
          gpuFree := gpuFree + [b];
        } else {
          cpuFree := cpuFree + [b];
        }
      }
      ok := true;
    }

    /** `allocate`. */
    method Allocate(ids: seq<SeqId>, n: nat) returns (ok: bool)
      modifies this
      ensures ok <==> Engine.Allocate(old(State()), ids, n).Done?
      ensures ok ==> Engine.Allocate(old(State()), ids, n) == Done(State())
    {
      var table, left := [], n;
      while left > 0
        invariant blockTables == old(blockTables)
        invariant Engine.AllocTable(old(PoolState()), n, []) == Engine.AllocTable(PoolState(), left, table)
      {
        var r := AllocateBlock(Gpu);
        if r.Panic? {
          return false;
        }
        table := table + [r.value];
        left := left - 1;
      }
      label AfterTable:
      var k := 0;
      while k < |ids|
        invariant k <= |ids| && PoolState() == old@AfterTable(PoolState())
        invariant Engine.InsertAll(old@AfterTable(blockTables), ids, table) ==
                  Engine.InsertAll(blockTables, ids[k..], table)
      {
        blockTables := blockTables[ids[k] := table];
        assert ids[k..][1..] == ids[k + 1..];
        k := k + 1;
      }
      ok := true;
    }

    /** `free_sequence`. */
    method FreeSequence(s: SeqId) returns (ok: bool)
      modifies this
      ensures ok <==> Engine.FreeSequence(old(State()), s).Done?
      ensures ok ==> Engine.FreeSequence(old(State()), s) == Done(State())
    {
      if s !in blockTables {
        return false;
      }
      var table, k := blockTables[s], 0;
      while k < |table|
        invariant k <= |table| && blockTables == old(blockTables)
        invariant Engine.ReleaseAll(old(PoolState()), table) == Engine.ReleaseAll(PoolState(), table[k..])
      {
        assert table[k..][0] == table[k] && table[k..][1..] == table[k + 1..];
        ok := FreeBlock(table[k].dev, table[k]);
        if !ok {
          return;
        }
        k := k + 1;
      }
      blockTables := blockTables - {s};
      ok := true;
    }

    /** `Scheduler::_free`. */
    method FreeGroup(ids: seq<SeqId>) returns (ok: bool)
      modifies this
      ensures ok <==> Engine.FreeGroup(old(State()), ids).Done?
      ensures ok ==> Engine.FreeGroup(old(State()), ids) == Done(State())
    {
      hide Engine.FreeSequence;
      var k := 0;
      while k < |ids|
        invariant k <= |ids|
        invariant Engine.FreeGroup(old(State()), ids) == Engine.FreeGroup(State(), ids[k..])
      {
        assert ids[k..][0] == ids[k] && ids[k..][1..] == ids[k + 1..];
        ok := FreeSequence(ids[k]);
        if !ok {
          return;
        }
        k := k + 1;
      }
      ok := true;
    }

    /** The block that takes the place of `b`: a new one, or the one its id is already mapped to. */
    method MapBlock(b: Block, to: Device, mapping: map<nat, Block>) returns (r: Outcome<(map<nat, Block>, Block)>)
      modifies this
      ensures Engine.MapBlock(old(PoolState()), to, mapping, b).Panic? <==> r.Panic?
      ensures r.Done? ==> Engine.MapBlock(old(PoolState()), to, mapping, b) == Done((PoolState(), r.value.0, r.value.1))
                          && blockTables == old(blockTables)
    {
      if b.id !in mapping {
        var a := AllocateBlock(to);
        if a.Panic? {
          return Panic;
        }
        return Done((mapping[b.id := a.value], a.value));
      }
      var c := mapping[b.id];
      if c !in refcounts {
        return Panic;
      }
      refcounts := refcounts[c := refcounts[c] + 1];
      r := Done((mapping, c));
    }

    /** The inner loop of `swap_out` and `swap_in` for one table. */
    method MoveTable(table: Table, to: Device, from: Device, mapping0: map<nat, Block>)
      returns (r: Outcome<(map<nat, Block>, Table)>)
      modifies this
      ensures Engine.MoveTable(old(PoolState()), table, to, from, mapping0).Panic? <==> r.Panic?
      ensures r.Done? ==>
                Engine.MoveTable(old(PoolState()), table, to, from, mapping0) ==
                Done((PoolState(), r.value.0, r.value.1))
                          && blockTables == old(blockTables)
    {
      hide Release, Engine.MapBlock;
      var mapping: map<nat, Block>, moved, k := mapping0, [], 0;
      ghost var all := Engine.MoveTable(PoolState(), table, to, from, mapping0);
      assert table[0..] == table;
      PrependNothing(all);
      while k < |table|
        invariant k <= |table| && blockTables == old(blockTables)
        invariant all == Prepend(moved, Engine.MoveTable(PoolState(), table[k..], to, from, mapping))
      {
        var b := table[k];
        assert table[k..][0] == b && table[k..][1..] == table[k + 1..];
        var m := MapBlock(b, to, mapping);
        if m.Panic? {
          return Panic;
        }
        var c := m.value.1;
        mapping := m.value.0;
        var ok := FreeBlock(from, b);
        if !ok {
          return Panic;
        }
        PrependTwice(moved, c, Engine.MoveTable(PoolState(), table[k + 1..], to, from, mapping));
        moved := moved + [c];
        k := k + 1;
      }
      assert table[k..] == [] && moved + [] == moved;
      r := Done((mapping, moved));
    }

    /** `swap_out` with `to` the CPU, `swap_in` with `to` the GPU. */
    method MoveGroup(ids: seq<SeqId>, to: Device, from: Device) returns (r: Outcome<map<nat, Block>>)
      modifies this
      ensures Engine.MoveGroup(old(State()), ids, to, from, map[]).Panic? <==> r.Panic?
      ensures r.Done? ==> Engine.MoveGroup(old(State()), ids, to, from, map[]) == Done((State(), r.value))
    {
      hide Engine.MoveTable;
      var mapping: map<nat, Block>, k := map[], 0;
      ghost var all := Engine.MoveGroup(State(), ids, to, from, map[]);
      assert ids[0..] == ids;
      while k < |ids|
        invariant k <= |ids|
        invariant all == Engine.MoveGroup(State(), ids[k..], to, from, mapping)
      {
        assert ids[k..][0] == ids[k] && ids[k..][1..] == ids[k + 1..];
        if ids[k] !in blockTables {
          return Panic;
        }
        var t := MoveTable(blockTables[ids[k]], to, from, mapping);
        if t.Panic? {
          return Panic;
        }
        mapping := t.value.0;
        blockTables := blockTables[ids[k] := t.value.1];
        k := k + 1;
      }
      assert ids[k..] == [];
      r := Done(mapping);
    }

    /** `append_token_slot_to_seq`. */
    method AppendSlot(s: SeqId, needsBlock: bool) returns (r: Outcome<Option<(nat, nat)>>)
      modifies this
      ensures Engine.AppendSlot(old(State()), s, needsBlock).Panic? <==> r.Panic?
      ensures r.Done? ==> Engine.AppendSlot(old(State()), s, needsBlock) == Done((State(), r.value))
    {
      if s !in blockTables {
        return Panic;
      }
      var table := blockTables[s];
      if needsBlock {
        var a := AllocateBlock(Gpu);
        if a.Panic? {
          return Panic;
        }
        blockTables := blockTables[s := table + [a.value]];
        return Done(None);
      }
      if table == [] || table[|table| - 1].dev.Cpu? || table[|table| - 1] !in refcounts {
        return Panic;
      }
      var last := table[|table| - 1];
      if refcounts[last] == 1 {
        return Done(None);
      }
      var a := AllocateBlock(Gpu);
      if a.Panic? {
        return Panic;
      }
      var ok := FreeBlock(Gpu, last);
      if !ok {
        return Panic;
      }
      blockTables := blockTables[s := table[|table| - 1 := a.value]];
      r := Done(Some((last.id, a.value.id)));
    }

    /** `_append_token_slot_to_seq_group`: the copies already recorded and those of this group. */
    method AppendGroup(ids: seq<SeqId>, full: set<SeqId>, copies0: map<nat, seq<nat>>)
      returns (r: Outcome<map<nat, seq<nat>>>)
      modifies this
      ensures Engine.AppendGroup(old(State()), ids, full, copies0).Panic? <==> r.Panic?
      ensures r.Done? ==> Engine.AppendGroup(old(State()), ids, full, copies0) == Done((State(), r.value))
    {
      hide Engine.AppendSlot;
      var copies, k := copies0, 0;
      ghost var all := Engine.AppendGroup(State(), ids, full, copies0);
      assert ids[0..] == ids;
      while k < |ids|
        invariant k <= |ids|
        invariant all == Engine.AppendGroup(State(), ids[k..], full, copies)
      {
        assert ids[k..][0] == ids[k] && ids[k..][1..] == ids[k + 1..];
        var op := AppendSlot(ids[k], ids[k] in full);
        if op.Panic? {
          return Panic;
        }
        if op.value.Some? {
          var (src, dst) := op.value.value;
          ghost var added := Engine.AddCopy(copies, src, dst);
          if src !in copies {
            assert [] + [dst] == [dst];
            copies := copies[src := [dst]];
          } else {
            copies := copies[src := copies[src] + [dst]];
          }
          assert copies == added;
        }
        k := k + 1;
      }
      assert ids[k..] == [];
      r := Done(copies);
    }
  }
}
