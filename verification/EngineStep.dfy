/** One engine step end to end: the scheduler object decides, the cache object executes. */
module EngineStep {
  import opened Outcomes
  import opened Pools
  import opened MemoryOps
  import StepInvariant
  import ScheduleSafety
  import ScheduleTheorem
  import S = Scheduler
  import opened SchedulerMachine
  import opened CacheMachine

  /** Every block of the pools has a cell in its cache. */
  ghost predicate CellsFor(blocks: set<Block>, gpuCells: nat, cpuCells: nat) {
    forall b :: b in blocks ==> b.id < if b.dev.Gpu? then gpuCells else cpuCells
  }

  lemma OpsInRange(ops: S.Ops, plan: Plan, blocks: set<Block>, gpuCells: nat, cpuCells: nat)
    requires Describes(ops.swapIn, ops.swapOut, ops.copies, plan) && StepInvariant.Within(plan, blocks)
    requires CellsFor(blocks, gpuCells, cpuCells)
    ensures InRange(ops.swapIn, cpuCells, gpuCells) && InRange(ops.swapOut, gpuCells, cpuCells)
    ensures CopiesInRange(ops.copies, gpuCells)
  {
    forall c | c in ops.swapIn ensures c < cpuCells && ops.swapIn[c] < gpuCells {
      var x := ops.swapIn[c];
      assert x in plan.inn && plan.inn[x] == c;
      assert Block(Gpu, x) in blocks && Block(Cpu, c) in blocks;
    }
    forall g | g in ops.swapOut ensures g < gpuCells && ops.swapOut[g] < cpuCells {
      var c := ops.swapOut[g];
      assert c in plan.out && plan.out[c] == g;
      assert Block(Cpu, c) in blocks && Block(Gpu, g) in blocks;
    }
    forall s, d | s in ops.copies && d in ops.copies[s] ensures s < gpuCells && d < gpuCells {
      assert d in plan.copy && plan.copy[d] == s;
      assert Block(Gpu, d) in blocks && Block(Gpu, s) in blocks;
    }
  }

  /**
   `schedule` followed by `execute_scheduler_ops`, as `generate` does: unless the scheduler panics, every sequence that
   still has a table reads through it exactly what it read before, keys and values in every layer.
   */
  method ScheduleAndExecute<D(!new)>(scheduler: Scheduler, cache: CacheEngine<D>, ghost own: StepInvariant.Owner)
    returns (r: Outcome<S.Output>)
    requires ScheduleSafety.SchedulerOk(own, scheduler.State())
    requires ScheduleTheorem.PoolBounded(scheduler.config, scheduler.State().engine)
    requires cache.Valid()
    requires CellsFor(scheduler.State().engine.pools.refs.Keys, cache.gpuBlocks, cache.cpuBlocks)
    modifies scheduler, scheduler.engine, cache.GpuArrays(), cache.CpuArrays()
    ensures r.Done? ==> ScheduleSafety.SchedulerOk(own, scheduler.State())
    ensures r.Done? ==>
              forall i, j, k :: i in old(scheduler.State().engine.tables) && i in scheduler.State().engine.tables
                                && 0 <= j < |old(scheduler.State().engine.tables)[i]| && 0 <= k < |cache.planes| ==>
                && j < |scheduler.State().engine.tables[i]|
                && cache.planes[k].Mem()(scheduler.State().engine.tables[i][j])
                   == old(cache.planes[k].Mem())(old(scheduler.State().engine.tables)[i][j])
  {
    hide ScheduleSafety.SchedulerOk, ScheduleTheorem.PoolBounded, S.Schedule, Origin, Describes, CopiesApart;
    ghost var before := scheduler.State();
    r := scheduler.Schedule();
    if r.Panic? {
      return;
    }
    ghost var after := scheduler.State();
    ghost var plan := ScheduleTheorem.ScheduleSafe(scheduler.config, own, before);
    OpsInRange(r.value.ops, plan, before.engine.pools.refs.Keys, cache.gpuBlocks, cache.cpuBlocks);
    cache.Execute(r.value.ops.swapIn, r.value.ops.swapOut, r.value.ops.copies, plan);
    assert scheduler.State() == after;
  }
}
