/** Admission, and the main theorem about one schedule step. */
module ScheduleTheorem {
  import opened Outcomes
  import opened Pools
  import opened Engine
  import opened EngineLaws
  import opened MemoryOps
  import opened StepInvariant
  import opened Scheduler
  import opened ScheduleSafety

  /** The GPU pool has at most the configured number of blocks. */
  ghost predicate PoolBounded(c: Config, e: Engine) {
    forall b :: b in e.pools.refs && b.dev.Gpu? ==> b.id < c.numGpuBlocks
  }

  lemma {:induction false} DistinctBelow(list: seq<Block>, n: nat)
    requires NoDup(list) && (forall b :: b in list ==> b.dev.Gpu? && b.id < n)
    ensures |list| <= n
    decreases n
  {
    if list != [] {
      assert list[0] in list;
      var top := Block(Gpu, n - 1);
      if top in list {
        var i :| 0 <= i < |list| && list[i] == top;
        var rest := list[..i] + list[i + 1..];
        forall b | b in rest ensures b != top && b in list {}
        DistinctBelow(rest, n - 1);
      } else {
        DistinctBelow(list, n - 1);
      }
    }
  }

  lemma FreeBelowTotal(c: Config, e: Engine)
    requires Consistent(e) && PoolBounded(c, e)
    ensures |e.pools.gpuFree| <= c.numGpuBlocks
  {
    assert e.pools.FreeList(Gpu) == e.pools.gpuFree;
    DistinctBelow(e.pools.gpuFree, c.numGpuBlocks);
  }

  // ----- Admission

  /** A group of one sequence gets new, private GPU blocks and moves to the running queue. */
  lemma AdmitGroup(own: Owner, s: State, n: nat)
    requires SchedulerOk(own, s) && s.waiting != [] && Allocate(s.engine, s.waiting[0].seqs, n).Done?
    ensures var g := s.waiting[0];
            var e := Allocate(s.engine, g.seqs, n).value;
            && SchedulerOk(own, s.(waiting := s.waiting[1..], running := s.running + [g], engine := e,
                                   seqs := SetStatus(s.seqs, g, Running)))
            && e.pools.refs.Keys == s.engine.pools.refs.Keys
            && (forall t :: t in s.engine.tables ==> t in e.tables && e.tables[t] == s.engine.tables[t])
            && (forall t :: t in g.seqs ==> t in e.tables && |e.tables[t]| == n)
  {
    hide Consistent, References, Allocate, GroupOk;
    var g := s.waiting[0];
    assert |g.seqs| == 1;
    var i := g.seqs[0];
    assert g.seqs == [i];
    QueueFirst(own, s.waiting);
    QueuePush(own, s.running, g);
    assert GroupIs(own, [i], g.id) by { assert GroupOk(own, g); }
    assert i in [i];
    AllocateLaw(s.engine, i, n);
    var e := Allocate(s.engine, g.seqs, n).value;
    SetStatusKeys(s.seqs, g, Running);
    AdmitTables(own, s, g, i, e);
  }

  lemma AdmitTables(own: Owner, s: State, g: Group, i: SeqId, e: Engine)
    requires TablesOk(own, s.engine, Ids(s.running) + Ids(s.swappedOut), Ids(s.swappedOut))
    requires GroupIs(own, [i], g.id) && g.id !in Ids(s.running) + Ids(s.swappedOut)
    requires Consistent(e) && i in e.tables && e.tables == s.engine.tables[i := e.tables[i]]
    requires forall b :: b in e.tables[i] ==> b.dev.Gpu? && b !in References(s.engine.tables)
    requires Ids(s.running + [g]) == Ids(s.running) + {g.id}
    ensures TablesOk(own, e, Ids(s.running + [g]) + Ids(s.swappedOut), Ids(s.swappedOut))
  {
    hide Consistent, References, Ids;
    assert i in [i];
    forall t, b | t in s.engine.tables && b in s.engine.tables[t] ensures b in References(s.engine.tables) {
      TableBlockLive(s.engine, t, b);
    }
    assert forall t :: t in own && own[t] == g.id <==> t == i;
  }

  /** `can_allocate` answers `Impossible` only if the allocation that follows it panics. */
  lemma ImpossiblePanics(c: Config, own: Owner, s: State)
    requires SchedulerOk(own, s) && PoolBounded(c, s.engine) && s.waiting != []
    requires CanAllocate(c, s, s.waiting[0]).Impossible?
    ensures Allocate(s.engine, s.waiting[0].seqs, TotalLogicalBlocks(c, s.seqs, s.waiting[0].seqs)).Panic?
  {
    hide Consistent, GroupOk;
    var g := s.waiting[0];
    assert |g.seqs| == 1;
    assert g.seqs == [g.seqs[0]];
    FreeBelowTotal(c, s.engine);
    QueueFirst(own, s.waiting);
    assert GroupIs(own, g.seqs, g.id) by { assert GroupOk(own, g); }
    assert g.seqs[0] in g.seqs;
    AllocateLaw(s.engine, g.seqs[0], TotalLogicalBlocks(c, s.seqs, g.seqs));
  }

  lemma {:induction false} SameLengths(c: Config, seqs: map<SeqId, Sequence>, seqs': map<SeqId, Sequence>,
                                       ids: seq<SeqId>)
    requires forall s :: Len(seqs', s) == Len(seqs, s)
    ensures TotalLogicalBlocks(c, seqs', ids) == TotalLogicalBlocks(c, seqs, ids)
    decreases |ids|
  {
    if ids != [] {
      SameLengths(c, seqs, seqs', ids[1..]);
    }
  }

  /** What admission does: a prefix of the waiting queue moves, in order, to the end of the running queue. */
  ghost predicate Admitted(s: State, s': State, admitted: seq<Group>) {
    && s.waiting == admitted + s'.waiting && s'.running == s.running + admitted
    && s'.swappedOut == s.swappedOut
    && (forall t :: t in s.engine.tables ==> t in s'.engine.tables && s'.engine.tables[t] == s.engine.tables[t])
    && s'.engine.pools.refs.Keys == s.engine.pools.refs.Keys
    && (forall t :: t in s.seqs <==> t in s'.seqs)
    && (forall t :: t in s.seqs ==> s'.seqs[t].len == s.seqs[t].len)
  }

  lemma {:induction false} AdmitSafe(c: Config, own: Owner, s: State, scheduled: seq<Group>, ignored: seq<Group>)
    requires SchedulerOk(own, s) && PoolBounded(c, s.engine)
    requires Admit(c, s, scheduled, ignored).Done?
    ensures var (s', scheduled', ignored') := Admit(c, s, scheduled, ignored).value;
            && SchedulerOk(own, s') && ignored' == ignored && scheduled <= scheduled'
            && Admitted(s, s', scheduled'[|scheduled|..])
    decreases |s.waiting|
  {
    hide SchedulerOk, Allocate, PoolBounded, SetStatus, CanAllocate, NumSeqs, Admitted;
    var (s', scheduled', ignored') := Admit(c, s, scheduled, ignored).value;
    if s.waiting == [] || c.maxNumSeqs == NumSeqs(s.running) + 1 || CanAllocate(c, s, s.waiting[0]).Later? {
      assert scheduled'[|scheduled|..] == [];
      AdmittedNothing(s);
    } else {
      var g := s.waiting[0];
      if CanAllocate(c, s, g).Impossible? {
        SetStatusKeys(s.seqs, g, FinishedIgnored);
        SameLengths(c, s.seqs, SetStatus(s.seqs, g, FinishedIgnored), g.seqs);
        ImpossiblePanics(c, own, s);
      }
      var n := TotalLogicalBlocks(c, s.seqs, g.seqs);
      AdmitGroup(own, s, n);
      SetStatusKeys(s.seqs, g, Running);
      var e := Allocate(s.engine, g.seqs, n).value;
      var s1 := s.(waiting := s.waiting[1..], running := s.running + [g], engine := e,
                   seqs := SetStatus(s.seqs, g, Running));
      SamePoolBound(c, s.engine, e);
      AdmitSafe(c, own, s1, scheduled + [g], ignored);
      assert Admit(c, s, scheduled, ignored) == Admit(c, s1, scheduled + [g], ignored);
      AdmittedCons(s, s1, s', g, scheduled, scheduled');
    }
  }

  lemma AdmittedNothing(s: State)
    ensures Admitted(s, s, [])
  {
  }

  lemma AdmittedCons(s: State, s1: State, s': State, g: Group, scheduled: seq<Group>, scheduled': seq<Group>)
    requires s.waiting != [] && g == s.waiting[0] && s1.waiting == s.waiting[1..] && s1.running == s.running + [g]
    requires s1.swappedOut == s.swappedOut && s1.seqs.Keys == s.seqs.Keys
    requires forall t :: t in s.engine.tables ==> t in s1.engine.tables && s1.engine.tables[t] == s.engine.tables[t]
    requires s1.engine.pools.refs.Keys == s.engine.pools.refs.Keys
    requires forall t :: t in s.seqs ==> s1.seqs[t].len == s.seqs[t].len
    requires scheduled + [g] <= scheduled' && Admitted(s1, s', scheduled'[|scheduled + [g]|..])
    ensures scheduled <= scheduled' && Admitted(s, s', scheduled'[|scheduled|..])
  {
    var more := scheduled'[|scheduled + [g]|..];
    assert scheduled'[|scheduled|] == (scheduled + [g])[|scheduled|] == g;
    assert scheduled'[|scheduled|..] == [g] + more;
    assert s.waiting == [g] + s.waiting[1..];
    assert s.running + [g] + more == s.running + ([g] + more);
    assert scheduled <= scheduled + [g] <= scheduled';
  }

  lemma SamePoolBound(c: Config, e: Engine, e': Engine)
    requires PoolBounded(c, e) && e'.pools.refs.Keys == e.pools.refs.Keys
    ensures PoolBounded(c, e')
  {
  }

  // ----- One step

  /** Everything a step promises about tables, memory operations and slots. */
  ghost predicate StepSafe(own: Owner, s: State, s': State, out: Output, plan: Plan) {
    && SchedulerOk(own, s')
    && s'.engine.pools.refs.Keys == s.engine.pools.refs.Keys
    && Describes(out.ops.swapIn, out.ops.swapOut, out.ops.copies, plan) && CopiesApart(plan)
    && (plan.inn == map[] || plan.out == map[])
    && Keeps(s.engine.tables, s'.engine.tables, plan) && Within(plan, s.engine.pools.refs.Keys)
    && out.ignored == []
  }

  lemma StepStarts(own: Owner, s: State)
    requires SchedulerOk(own, s)
    ensures PassOk(own, s.engine, s.(running := LatestFirst(s.running)), NoOps, [], [], map[], map[])
  {
    hide Consistent, References, LatestFirst;
    LatestFirstOk(own, s.running);
    var s1 := s.(running := LatestFirst(s.running));
    assert Ids([]) == {};
    assert Ids([]) + Ids([]) + Ids(s1.running) + Ids(s1.swappedOut) == Ids(s.running) + Ids(s.swappedOut);
    assert Ids([]) + Ids(s1.running) == Ids(s.running);
    assert PassQueues(own, s1, [], []);
    StepOkStarts(own, s.engine, Ids(s.running) + Ids(s.swappedOut), Ids(s.swappedOut), Ids(s.running));
  }

  lemma StepOkStarts(own: Owner, e: Engine, live: set<nat>, onCpu: set<nat>, todo: set<nat>)
    requires TablesOk(own, e, live, onCpu)
    ensures StepOk(own, e, e, NoOps, live, onCpu, todo)
  {
    hide Consistent, Keyed, NoSharing, Placed;
  }

  lemma StepEnds(own: Owner, before: Engine, s: State, plan: Plan, ops: Ops)
    requires PassOk(own, before, s.(running := []), plan, s.running, [], ops.swapOut, ops.copies)
    ensures SchedulerOk(own, s.(swappedOut := LatestFirst(s.swappedOut)))
    ensures s.engine.pools.refs.Keys == before.pools.refs.Keys
    ensures Keeps(before.tables, s.engine.tables, plan) && CopiesApart(plan) && plan.inn == map[]
    ensures IsInverse(ops.swapOut, plan.out) && IsCopyInverse(ops.copies, plan.copy)
    ensures Slotted(s.engine.tables, s.running) && Within(plan, before.pools.refs.Keys)
    ensures plan.out == map[] && ops.swapIn == map[] ==>
              SwapInOk(own, before, s.(swappedOut := LatestFirst(s.swappedOut)), plan, ops)
  {
    hide Consistent, References, LatestFirst, Keeps, OwnsLast, IsCopyInverse, GroupOk, Origin;
    LatestFirstOk(own, s.swappedOut);
    assert Ids([]) == {};
    var live := Ids(s.running) + Ids([]) + Ids([]) + Ids(s.swappedOut);
    assert live == Ids(s.running) + Ids(s.swappedOut);
    assert forall g :: g in s.waiting ==> |g.seqs| == 1 by {
      assert s.(running := []).waiting == s.waiting;
    }
    if plan.out == map[] {
      NothingSwappedIn(own, s.engine.tables, plan, Ids(s.swappedOut));
    }
  }

  /** While nothing was swapped in and nothing swapped out, the blocks of swapped-out groups are clean. */
  lemma NothingSwappedIn(own: Owner, tables: Tables, plan: Plan, onCpu: set<nat>)
    requires Placed(own, tables, onCpu) && plan.inn == map[]
    ensures Untouched(own, tables, plan, onCpu)
  {
  }

  /** A step without admission: all scheduled groups are running and own their last blocks. */
  lemma DecodeSafe(c: Config, own: Owner, s: State) returns (plan: Plan)
    requires SchedulerOk(own, s) && Decode(c, s).Done?
    ensures var (s', out) := Decode(c, s).value;
            && StepSafe(own, s, s', out, plan)
            && out.scheduled == s'.running && Slotted(s'.engine.tables, s'.running)
  {
    hide SchedulerOk, PassOk, Process, SwapInLoop, LatestFirst, Slotted, Keeps, IsInverse, IsCopyInverse, CopiesApart;
    StepStarts(own, s);
    var s0 := s.(running := LatestFirst(s.running));
    var plan1 := ProcessSafe(c, own, s.engine, s0, NoOps, [], NoMaps, []);
    var (s1, ops, preempted) := Process(c, s0, [], NoMaps, []).value;
    StepEnds(own, s.engine, s1, plan1, ops);
    var s2 := s1.(swappedOut := LatestFirst(s1.swappedOut));
    if preempted == [] {
      plan := SwapInLoopSafe(c, own, s.engine, s2, plan1, ops);
      SwapInEnds(own, s.engine, SwapInLoop(c, s2, ops).value.0, plan, SwapInLoop(c, s2, ops).value.1);
    } else {
      plan := plan1;
      EmptyInverse();
    }
  }

  lemma EmptyInverse()
    ensures IsInverse(map[], map[]) && IsCopyInverse(map[], map[])
  {
  }

  lemma SwapInEnds(own: Owner, before: Engine, s: State, plan: Plan, ops: Ops)
    requires SwapInOk(own, before, s, plan, ops)
    ensures SchedulerOk(own, s) && s.engine.pools.refs.Keys == before.pools.refs.Keys
    ensures Keeps(before.tables, s.engine.tables, plan) && CopiesApart(plan) && plan.out == map[]
    ensures Describes(ops.swapIn, ops.swapOut, ops.copies, plan) && Slotted(s.engine.tables, s.running)
    ensures Within(plan, before.pools.refs.Keys)
  {
    hide Consistent, References, Keeps, OwnsLast, IsCopyInverse, IsInverse, GroupOk, Origin, Ids, QueueOk;
  }

  /**
   Main theorem. A schedule step that does not panic keeps every invariant of the block engine and the queues,
   and the memory operations it emits, executed after it in the order swap-in, swap-out, copy, leave every table
   position that survives with the contents it had. No copy source is a copy destination, no block is
   swapped out or in twice, and a step never swaps both ways.
   */
  lemma ScheduleSafe(c: Config, own: Owner, s: State) returns (plan: Plan)
    requires SchedulerOk(own, s) && PoolBounded(c, s.engine) && Schedule(c, s).Done?
    ensures var (s', out) := Schedule(c, s).value;
            && StepSafe(own, s, s', out, plan)
            && (if out.scheduled != [] && s.swappedOut == [] && Admit(c, s, [], []).Done?
                && Admit(c, s, [], []).value.1 != []
                then Admitted(s, s', out.scheduled) && out.ops == NoMaps
                else out.scheduled == s'.running && Slotted(s'.engine.tables, s'.running))
  {
    hide SchedulerOk, Admit, Decode, Slotted, Keeps, IsInverse, IsCopyInverse, CopiesApart;
    if s.swappedOut == [] {
      AdmitSafe(c, own, s, [], []);
      var (s1, scheduled, ignored) := Admit(c, s, [], []).value;
      assert scheduled[0..] == scheduled;
      if scheduled != [] {
        plan := NoOps;
        EmptyInverse();
        NothingMoved(s.engine.tables, s1.engine.tables);
      } else {
        plan := DecodeSafe(c, own, s1);
        assert s1.waiting == s.waiting && s1.running == s.running;
        SameStart(s, s1, Decode(c, s1).value.0, plan);
      }
    } else {
      plan := DecodeSafe(c, own, s);
    }
  }

  lemma NothingMoved(tables: Tables, tables': Tables)
    requires forall t :: t in tables ==> t in tables' && tables'[t] == tables[t]
    ensures Keeps(tables, tables', NoOps) && CopiesApart(NoOps)
  {
  }

  lemma SameStart(s: State, s1: State, s': State, plan: Plan)
    requires forall t :: t in s.engine.tables ==> t in s1.engine.tables && s1.engine.tables[t] == s.engine.tables[t]
    requires Keeps(s1.engine.tables, s'.engine.tables, plan)
    ensures Keeps(s.engine.tables, s'.engine.tables, plan)
  {
    hide Origin;
  }

  /**
   The same in terms of memory: whatever the two caches hold, after the step's operations have been executed every
   surviving sequence reads through its new table what it read through its old one.
   */
  lemma StepPreservesContents<D(!new)>(c: Config, own: Owner, s: State, m0: Block -> D, m1: Block -> D, m2: Block -> D,
                                       m3: Block -> D)
    requires SchedulerOk(own, s) && PoolBounded(c, s.engine) && Schedule(c, s).Done?
    requires var ops := Schedule(c, s).value.1.ops;
             SwappedIn(ops.swapIn, m0, m1) && SwappedOut(ops.swapOut, m1, m2) && Copied(ops.copies, m2, m3)
    ensures var after := Schedule(c, s).value.0.engine.tables;
            forall i, j :: i in s.engine.tables && i in after && 0 <= j < |s.engine.tables[i]| ==>
              j < |after[i]| && m3(after[i][j]) == m0(s.engine.tables[i][j])
  {
    hide SchedulerOk, Schedule, Origin, Describes, SwappedIn, SwappedOut, Copied, CopiesApart, PoolBounded;
    var plan := ScheduleSafe(c, own, s);
    var (s', out) := Schedule(c, s).value;
    var before, after := s.engine.tables, s'.engine.tables;
    forall i, j | i in before && i in after && 0 <= j < |before[i]|
      ensures j < |after[i]| && m3(after[i][j]) == m0(before[i][j])
    {
      ExecutionFollowsOrigin(out.ops.swapIn, out.ops.swapOut, out.ops.copies, plan, m0, m1, m2, m3, after[i][j]);
    }
  }
}
