/**
 Every block carries the flag `is_gpu` with value true, CPU blocks included (src/scheduler/block_engine.rs:159). So
 `free_sequence` as written returns every block to the GPU pool, and the assertion in `append_token_slot_to_seq` never
 fails. The model decides by the device instead; here is when that is the same.
 */
module FlagDefect {
  import opened Outcomes
  import opened Pools
  import opened Engine
  import opened EngineLaws
  import opened AppendLaws
  import MemoryOps
  import opened StepInvariant
  import opened Scheduler
  import opened ScheduleSafety

  function ReleaseAllAsWritten(p: Pools, table: Table): Outcome<Pools>
    decreases |table|
  {
    if table == [] then
      Done(p)
    else
      var q :- Release(p, Gpu, table[0]);
      ReleaseAllAsWritten(q, table[1..])
  }

  function FreeSequenceAsWritten(e: Engine, s: SeqId): Outcome<Engine> {
    if s !in e.tables then
      Panic
    else
      var p :- ReleaseAllAsWritten(e.pools, e.tables[s]);
      Done(Engine(p, e.tables - {s}))
  }

  function FreeGroupAsWritten(e: Engine, ids: seq<SeqId>): Outcome<Engine>
    decreases |ids|
  {
    if ids == [] then
      Done(e)
    else
      var e' :- FreeSequenceAsWritten(e, ids[0]);
      FreeGroupAsWritten(e', ids[1..])
  }

  // ----- Freeing

  /** Block `b` of pool `d` does not become free when the blocks of `table` are returned. */
  ghost predicate Survives(p: Pools, table: Table, b: Block) {
    b in p.refs && p.refs[b] > multiset(table)[b]
  }

  lemma {:induction false} ReleaseAllAgrees(p: Pools, table: Table)
    requires forall b :: b in table && b.dev.Cpu? ==> Survives(p, table, b)
    ensures ReleaseAllAsWritten(p, table) == ReleaseAll(p, table)
    decreases |table|
  {
    if table != [] {
      var x, rest := table[0], table[1..];
      assert table == [x] + rest;
      assert Release(p, Gpu, x) == Release(p, x.dev, x);
      if Release(p, Gpu, x).Done? {
        ReleaseAllAgrees(Release(p, Gpu, x).value, rest);
      }
    }
  }

  /** A CPU block whose references all go ends up in the GPU pool. */
  lemma {:induction false} ReleaseAllMisfiles(p: Pools, table: Table, b: Block)
    requires ReleaseAllAsWritten(p, table).Done?
    ensures b in p.gpuFree ==> b in ReleaseAllAsWritten(p, table).value.gpuFree
    ensures b in table && b in p.refs && p.refs[b] == multiset(table)[b] ==>
              b in ReleaseAllAsWritten(p, table).value.gpuFree
    decreases |table|
  {
    if table != [] {
      var x, rest := table[0], table[1..];
      assert table == [x] + rest;
      ReleaseAllMisfiles(Release(p, Gpu, x).value, rest, b);
    }
  }

  lemma {:induction false} ReleaseAllNeverPanics(p: Pools, table: Table)
    requires forall b :: b in table ==> b in p.refs && p.refs[b] >= multiset(table)[b]
    ensures ReleaseAllAsWritten(p, table).Done?
    decreases |table|
  {
    if table != [] {
      var x, rest := table[0], table[1..];
      assert table == [x] + rest;
      ReleaseAllNeverPanics(Release(p, Gpu, x).value, rest);
    }
  }

  /** Every CPU block of the table has a reference in another table. */
  ghost predicate CpuBlocksStay(e: Engine, s: SeqId)
    requires s in e.tables
  {
    forall b :: b in e.tables[s] && b.dev.Cpu? ==> References(e.tables)[b] > multiset(e.tables[s])[b]
  }

  /**
   Freeing a sequence as written never panics. It keeps the accounting, and is what the comment says, exactly when no
   CPU block becomes free by it.
   */
  lemma FreeAsWrittenIff(e: Engine, s: SeqId)
    requires Consistent(e) && s in e.tables
    ensures FreeSequenceAsWritten(e, s).Done?
    ensures Consistent(FreeSequenceAsWritten(e, s).value) <==> CpuBlocksStay(e, s)
    ensures FreeSequenceAsWritten(e, s) == FreeSequence(e, s) <==> CpuBlocksStay(e, s)
  {
    hide References, FreeListOk;
    var table := e.tables[s];
    ReferencesSplit(e.tables, s);
    forall b | b in table
      ensures b in e.pools.refs && e.pools.refs[b] == References(e.tables)[b] >= multiset(table)[b]
    {
      TableBlockLive(e, s, b);
      CountIs(e, b);
    }
    ReleaseAllNeverPanics(e.pools, table);
    FreeSequenceLaw(e, s);
    if CpuBlocksStay(e, s) {
      ReleaseAllAgrees(e.pools, table);
    } else {
      var b :| b in table && b.dev.Cpu? && References(e.tables)[b] <= multiset(table)[b];
      ReleaseAllMisfiles(e.pools, table, b);
      Misplaced(FreeSequenceAsWritten(e, s).value, b);
    }
  }

  lemma Misplaced(e: Engine, b: Block)
    requires b in e.pools.gpuFree && b.dev.Cpu?
    ensures !Consistent(e)
  {
    assert b in e.pools.FreeList(Gpu);
  }

  lemma {:induction false} FreeGroupAgrees(e: Engine, ids: seq<SeqId>)
    requires Consistent(e) && NoDup(ids)
    requires forall s :: s in ids ==> s in e.tables
    requires forall s, b :: s in ids && b in e.tables[s] ==> b.dev.Gpu?
    ensures FreeGroupAsWritten(e, ids) == FreeGroup(e, ids)
    decreases |ids|
  {
    hide Consistent, FreeSequence, FreeSequenceAsWritten, NoDup, References;
    if ids != [] {
      NoDupTail(ids);
      FreeAsWrittenIff(e, ids[0]);
      FreeSequenceLaw(e, ids[0]);
      FreeGroupAgrees(FreeSequence(e, ids[0]).value, ids[1..]);
    }
  }

  /**
   So every free of a group that is not swapped out is as the comment says, in every state inside a step and between
   steps. Preemption and clean-up free no other groups.
   */
  lemma FreesOnGpu(own: Owner, e: Engine, live: set<nat>, onCpu: set<nat>, g: Group)
    requires TablesOk(own, e, live, onCpu) && GroupOk(own, g) && g.id in live && g.id !in onCpu
    ensures FreeGroupAsWritten(e, g.seqs) == FreeGroup(e, g.seqs) && FreeGroup(e, g.seqs).Done?
  {
    hide Consistent, FreeGroup, FreeGroupAsWritten, NoSharing;
    FreeGroupAgrees(e, g.seqs);
    FreeGroupLaw(e, g.seqs);
  }

  /** The victim of a preemption: in hand, never swapped out. */
  lemma VictimOnGpu(own: Owner, before: Engine, s: State, plan: MemoryOps.Plan, kept: seq<Group>, rest: seq<Group>,
                    v: Group, swapOut: map<nat, nat>, copies: map<nat, seq<nat>>)
    requires PassOk(own, before, s, plan, kept, rest + [v], swapOut, copies)
    ensures FreeGroupAsWritten(s.engine, v.seqs) == FreeGroup(s.engine, v.seqs) && FreeGroup(s.engine, v.seqs).Done?
  {
    hide TablesOk, Keeps, PlanLive, MemoryOps.CopiesApart, Untouched, MemoryOps.IsInverse, MemoryOps.IsCopyInverse,
         Slotted, FreeGroup, FreeGroupAsWritten;
    HandLast(own, s, kept, rest, v);
    FreesOnGpu(own, s.engine, Ids(kept) + Ids(rest + [v]) + Ids(s.running) + Ids(s.swappedOut), Ids(s.swappedOut), v);
  }

  // ----- Appending

  /** `append_token_slot_to_seq` without the check of the device. */
  function AppendSlotAsWritten(e: Engine, s: SeqId, needsBlock: bool): Outcome<(Engine, Option<(nat, nat)>)> {
    if s !in e.tables then
      Panic
    else if needsBlock then
      var (p, b) :- Alloc(e.pools, Gpu);
      Done((Engine(p, e.tables[s := e.tables[s] + [b]]), None))
    else
      var table := e.tables[s];
      if table == [] || table[|table| - 1] !in e.pools.refs then
        Panic
      else
        var last := table[|table| - 1];
        if e.pools.refs[last] == 1 then
          Done((e, None))
        else
          var (p, b) :- Alloc(e.pools, Gpu);
          var q :- Release(p, Gpu, last);
          Done((Engine(q, e.tables[s := table[|table| - 1 := b]]), Some((last.id, b.id))))
  }

  /**
   It differs exactly on an open table that ends in a CPU block, unless that block is shared and no GPU block is free.
   */
  lemma AppendAsWrittenIff(e: Engine, s: SeqId, needsBlock: bool)
    requires Consistent(e)
    ensures AppendSlotAsWritten(e, s, needsBlock) == AppendSlot(e, s, needsBlock) <==>
            !(&& s in e.tables && !needsBlock && e.tables[s] != [] && Last(e.tables[s]).dev.Cpu?
              && (References(e.tables)[Last(e.tables[s])] == 1 || e.pools.gpuFree != []))
  {
    hide References;
    if s in e.tables && !needsBlock && e.tables[s] != [] {
      var last := Last(e.tables[s]);
      TableBlockLive(e, s, last);
      CountIs(e, last);
      AllocAccounted(e.pools, References(e.tables), Gpu);
    }
  }
}
