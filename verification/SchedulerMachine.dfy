/** The scheduler as the object the source has: three queues and a block engine, changed in place by nested loops. */
module SchedulerMachine {
  import opened Outcomes
  import opened Pools
  import Engine
  import S = Scheduler
  import opened EngineMachine

  type Group = S.Group
  type Sequences = map<SeqId, S.Sequence>

  class Scheduler {
    const config: S.Config
    const engine: BlockEngine
    var waiting: seq<Group>
    var running: seq<Group>
    var swappedOut: seq<Group>
    var seqs: Sequences

    function State(): S.State
      reads this, engine
    {
      S.State(waiting, running, swappedOut, engine.State(), seqs)
    }

    constructor (config: S.Config, numCpuBlocks: nat)
      ensures this.config == config && fresh(engine)
      ensures State() == S.State([], [], [], Engine.Engine(NewPools(config.numGpuBlocks, numCpuBlocks), map[]), map[])
    {
      this.config := config;
      engine := new BlockEngine(config.numGpuBlocks, numCpuBlocks);
      waiting, running, swappedOut, seqs := [], [], [], map[];
    }

    /** `add_sequence` for a group whose sequences are given with it. */
    method AddSequence(g: Group, info: Sequences)
      modifies this
      ensures State() == old(State()).(waiting := old(waiting) + [g], seqs := old(seqs) + info)
    {
      waiting := waiting + [g];
      seqs := seqs + info;
    }

    /** The admission loop of `schedule`. */
    method AdmitWaiting() returns (r: Outcome<(seq<Group>, seq<Group>)>)
      modifies this, engine
      ensures S.Admit(config, old(State()), [], []).Panic? <==> r.Panic?
      ensures r.Done? ==> S.Admit(config, old(State()), [], []) == Done((State(), r.value.0, r.value.1))
    {
      hide S.CanAllocate, S.SetStatus, S.TotalLogicalBlocks, S.NumSeqs, Engine.Allocate;
      var scheduled, ignored := [], [];
      ghost var all := S.Admit(config, State(), [], []);
      while waiting != []
        invariant all == S.Admit(config, State(), scheduled, ignored)
        decreases |waiting|
      {
        var g := waiting[0];
        if config.maxNumSeqs == S.NumSeqs(running) + 1 {
          break;
        }
        var status := S.CanAllocate(config, State(), g);
        if status.Later? {
          break;
        }
        if status.Impossible? {
          seqs := S.SetStatus(seqs, g, S.FinishedIgnored);
          ignored := ignored + [g];
          waiting := waiting[1..];
        }
        var ok := engine.Allocate(g.seqs, S.TotalLogicalBlocks(config, seqs, g.seqs));
        if !ok || waiting == [] {
          return Panic;
        }
        seqs := S.SetStatus(seqs, g, S.Running);
        var h := waiting[0];
        waiting := waiting[1..];
        running := running + [h];
        scheduled := scheduled + [h];
      }
      r := Done((scheduled, ignored));
    }

    /** `_preempt` with `_preempt_by_recompute`, `_preempt_by_swap` and `_abort_seq_group`. */
    method Preempt(g: Group, swapOut: map<nat, nat>) returns (r: Outcome<map<nat, nat>>)
      modifies this, engine
      ensures S.Preempt(old(State()), g, swapOut).Panic? <==> r.Panic?
      ensures r.Done? ==> S.Preempt(old(State()), g, swapOut) == Done((State(), r.value))
    {
      hide S.SetStatus, S.RemoveGroup, Engine.FreeGroup, Engine.MoveGroup;
      if |g.seqs| == 1 {
        seqs := S.SetStatus(seqs, g, S.Waiting);
        var ok := engine.FreeGroup(g.seqs);
        if !ok {
          return Panic;
        }
        waiting := [g] + waiting;
        return Done(swapOut);
      }
      if Engine.CanSwapOut(engine.State(), g.seqs) {
        var m := engine.MoveGroup(g.seqs, Cpu, Gpu);
        if m.Panic? {
          return Panic;
        }
        seqs := S.SetStatus(seqs, g, S.Status.Swapped);
        swappedOut := swappedOut + [g];
        return Done(swapOut + Engine.BlockIds(m.value));
      }
      waiting := S.RemoveGroup(waiting, g.id);
      running := S.RemoveGroup(running, g.id);
      swappedOut := S.RemoveGroup(swappedOut, g.id);
      seqs := S.SetStatus(seqs, g, S.FinishedAborted);
      var ok := engine.FreeGroup(g.seqs);
      if !ok {
        return Panic;
      }
      r := Done(swapOut);
    }

    /** The inner loop: preempts until `g` fits. Returns the swap-outs, the preempted groups and whether `g` is one. */
    method MakeRoom(g: Group, swapOut0: map<nat, nat>, preempted0: seq<Group>)
      returns (r: Outcome<(map<nat, nat>, seq<Group>, bool)>)
      modifies this, engine
      ensures S.MakeRoom(config, old(State()), g, swapOut0, preempted0).Panic? <==> r.Panic?
      ensures r.Done? ==> S.MakeRoom(config, old(State()), g, swapOut0, preempted0)
                          == Done(S.Room(State(), r.value.0, r.value.1, r.value.2))
      ensures r.Done? ==> |running| <= old(|running|)
    {
      hide S.Preempt, S.CanAppend;
      var swapOut, preempted := swapOut0, preempted0;
      ghost var all := S.MakeRoom(config, State(), g, swapOut0, preempted0);
      while !S.CanAppend(config, State(), g)
        invariant all == S.MakeRoom(config, State(), g, swapOut, preempted) && |running| <= old(|running|)
        decreases |running|
      {
        if running != [] {
          var victim := running[|running| - 1];
          running := running[..|running| - 1];
          ghost var before := State();
          var p := Preempt(victim, swapOut);
          if p.Panic? {
            return Panic;
          }
          assert |running| <= |before.running|;
          swapOut, preempted := p.value, preempted + [victim];
        } else {
          var p := Preempt(g, swapOut);
          if p.Panic? {
            return Panic;
          }
          return Done((p.value, preempted + [g], true));
        }
      }
      r := Done((swapOut, preempted, false));
    }

    /** The outer loop over the running queue. Returns the operations and the preempted groups. */
    method ProcessRunning() returns (r: Outcome<(S.Ops, seq<Group>)>)
      modifies this, engine
      ensures S.Process(config, old(State()), [], S.NoMaps, []).Panic? <==> r.Panic?
      ensures r.Done? ==> S.Process(config, old(State()), [], S.NoMaps, []) == Done((State(), r.value.0, r.value.1))
    {
      hide S.MakeRoom, Engine.AppendGroup, S.FullSeqs;
      var ops, preempted, kept := S.NoMaps, [], [];
      ghost var all := S.Process(config, State(), [], S.NoMaps, []);
      while running != []
        invariant all == S.Process(config, State(), kept, ops, preempted)
        decreases |running|
      {
        var g := running[0];
        running := running[1..];
        var room := MakeRoom(g, ops.swapOut, preempted);
        if room.Panic? {
          return Panic;
        }
        var (swapOut, preempted', selfPreempted) := room.value;
        preempted := preempted';
        if selfPreempted {
          ops := ops.(swapOut := swapOut);
        } else {
          var a := engine.AppendGroup(g.seqs, S.FullSeqs(config, seqs), ops.copies);
          if a.Panic? {
            return Panic;
          }
          ops := ops.(swapOut := swapOut, copies := a.value);
          kept := kept + [g];
        }
      }
      running := kept;
      r := Done((ops, preempted));
    }

    /** The swap-in loop. */
    method SwapInGroups(ops0: S.Ops) returns (r: Outcome<S.Ops>)
      modifies this, engine
      ensures S.SwapInLoop(config, old(State()), ops0).Panic? <==> r.Panic?
      ensures r.Done? ==> S.SwapInLoop(config, old(State()), ops0) == Done((State(), r.value))
    {
      hide Engine.MoveGroup, Engine.AppendGroup, S.FullSeqs, Engine.CanSwapIn;
      var ops := ops0;
      ghost var all := S.SwapInLoop(config, State(), ops0);
      while swappedOut != [] && Engine.CanSwapIn(engine.State(), swappedOut[0].seqs)
        invariant all == S.SwapInLoop(config, State(), ops)
        decreases |swappedOut|
      {
        var g := swappedOut[0];
        swappedOut := swappedOut[1..];
        var m := engine.MoveGroup(g.seqs, Gpu, Cpu);
        if m.Panic? {
          return Panic;
        }
        var a := engine.AppendGroup(g.seqs, S.FullSeqs(config, seqs), ops.copies);
        if a.Panic? {
          return Panic;
        }
        ops := ops.(swapIn := ops.swapIn + Engine.BlockIds(m.value), copies := a.value);
        running := running + [g];
      }
      r := Done(ops);
    }

    /** `schedule`. */
    method Schedule() returns (r: Outcome<S.Output>)
      modifies this, engine
      ensures S.Schedule(config, old(State())).Panic? <==> r.Panic?
      ensures r.Done? ==> S.Schedule(config, old(State())) == Done((State(), r.value))
    {
      hide S.Admit, S.Process, S.SwapInLoop, S.LatestFirst;
      if swappedOut == [] {
        var a := AdmitWaiting();
        if a.Panic? {
          return Panic;
        }
        var (scheduled, ignored) := a.value;
        if scheduled != [] || ignored != [] {
          return Done(S.Output(scheduled, S.NoMaps, ignored));
        }
      }
      running := S.LatestFirst(running);
      var p := ProcessRunning();
      if p.Panic? {
        return Panic;
      }
      var (ops, preempted) := p.value;
      swappedOut := S.LatestFirst(swappedOut);
      if preempted == [] {
        var q := SwapInGroups(ops);
        if q.Panic? {
          return Panic;
        }
        ops := q.value;
      }
      r := Done(S.Output(running, ops, []));
    }

    /** `free_finished_sequence_groups`. */
    method FreeFinished() returns (ok: bool)
      modifies this, engine
      ensures ok <==> S.FreeFinished(old(State())).Done?
      ensures ok ==> S.FreeFinished(old(State())) == Done(State())
    {
      hide S.GroupFinished, Engine.FreeGroup;
      var q, k := running, 0;
      assert q[0..] == q;
      while k < |q|
        invariant k <= |q| && waiting == old(waiting) && running == q && swappedOut == old(swappedOut)
        invariant seqs == old(seqs)
        invariant S.FreeFinishedGroups(old(engine.State()), seqs, q) ==
                  S.FreeFinishedGroups(engine.State(), seqs, q[k..])
      {
        assert q[k..][0] == q[k] && q[k..][1..] == q[k + 1..];
        if S.GroupFinished(seqs, q[k]) {
          ok := engine.FreeGroup(q[k].seqs);
          if !ok {
            return;
          }
        }
        k := k + 1;
      }
      running := S.Unfinished(seqs, q);
      ok := true;
    }
  }
}
