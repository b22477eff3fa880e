/**
 What an iteration will do, by counting: how many groups it admits, how many running groups it keeps and whether it
 panics are functions of the numbers of blocks before it, for groups of one sequence.
 */
module IterationCounts {
  import opened Outcomes
  import opened Pools
  import opened Engine
  import opened EngineLaws
  import opened AppendLaws
  import opened MemoryOps
  import opened StepInvariant
  import opened Scheduler
  import opened ScheduleSafety
  import opened ScheduleTheorem
  import opened QueueOrder
  import opened SingleSequence
  import opened Admission
  import opened Runs
  import opened Generation
  import opened RunHistory

  // ----- Admission

  /** How many of the waiting groups, which need these numbers of blocks, are admitted. */
  function Admissible(total: nat, free: nat, maxNumSeqs: nat, running: nat, needs: seq<nat>): Outcome<nat>
    decreases |needs|
  {
    if needs == [] || maxNumSeqs == running + 1 || total > free + needs[0] then Done(0)
    else if needs[0] > free then Panic
    else
      var more :- Admissible(total, free - needs[0], maxNumSeqs, running + 1, needs[1..]);
      Done(1 + more)
  }

  function Needs(c: Config, seqs: map<SeqId, Sequence>, q: seq<Group>): seq<nat> {
    seq(|q|, k requires 0 <= k < |q| => TotalLogicalBlocks(c, seqs, q[k].seqs))
  }

  lemma NeedsSame(c: Config, seqs: map<SeqId, Sequence>, seqs': map<SeqId, Sequence>, q: seq<Group>)
    requires forall i :: Len(seqs', i) == Len(seqs, i)
    ensures Needs(c, seqs', q) == Needs(c, seqs, q)
  {
    forall k | 0 <= k < |q| ensures Needs(c, seqs', q)[k] == Needs(c, seqs, q)[k] {
      SameLengths(c, seqs, seqs', q[k].seqs);
    }
  }

  lemma NeedsParts(c: Config, seqs: map<SeqId, Sequence>, q: seq<Group>)
    ensures |Needs(c, seqs, q)| == |q|
    ensures q != [] ==> && Needs(c, seqs, q)[0] == TotalLogicalBlocks(c, seqs, q[0].seqs)
                        && Needs(c, seqs, q)[1..] == Needs(c, seqs, q[1..])
  {
  }

  lemma {:induction false} AdmitCounts(c: Config, own: Owner, s: State, scheduled: seq<Group>, ignored: seq<Group>)
    requires SchedulerOk(own, s) && PoolBounded(c, s.engine) && AllSingle(s.running)
    ensures var n := Admissible(c.numGpuBlocks, |s.engine.pools.gpuFree|, c.maxNumSeqs, |s.running|,
                                Needs(c, s.seqs, s.waiting));
            && (Admit(c, s, scheduled, ignored).Done? <==> n.Done?)
            && (n.Done? ==> |Admit(c, s, scheduled, ignored).value.1| == |scheduled| + n.value)
    decreases |s.waiting|
  {
    hide SchedulerOk, Allocate, PoolBounded, SetStatus, AllSingle, TotalLogicalBlocks, Needs;
    NumSeqsSingle(s.running);
    NeedsParts(c, s.seqs, s.waiting);
    if s.waiting != [] && c.maxNumSeqs != |s.running| + 1 && !CanAllocate(c, s, s.waiting[0]).Later? {
      AdmissionPanicsIff(c, own, s, scheduled, ignored);
      var g := s.waiting[0];
      var n := TotalLogicalBlocks(c, s.seqs, g.seqs);
      if n <= |s.engine.pools.gpuFree| {
        AdmitNext(c, own, s);
        var s1 := s.(waiting := s.waiting[1..], running := s.running + [g],
                     engine := Allocate(s.engine, g.seqs, n).value,
                     seqs := SetStatus(s.seqs, g, Running));
        AdmitCounts(c, own, s1, scheduled + [g], ignored);
      }
    }
  }

  /** The state in which the loop goes on after admitting the first group. */
  lemma AdmitNext(c: Config, own: Owner, s: State)
    requires SchedulerOk(own, s) && PoolBounded(c, s.engine) && AllSingle(s.running) && s.waiting != []
    requires TotalLogicalBlocks(c, s.seqs, s.waiting[0].seqs) <= |s.engine.pools.gpuFree|
    requires Allocate(s.engine, s.waiting[0].seqs, TotalLogicalBlocks(c, s.seqs, s.waiting[0].seqs)).Done?
    ensures var g := s.waiting[0];
            var n := TotalLogicalBlocks(c, s.seqs, g.seqs);
            var s1 := s.(waiting := s.waiting[1..], running := s.running + [g],
                         engine := Allocate(s.engine, g.seqs, n).value,
                         seqs := SetStatus(s.seqs, g, Running));
            && SchedulerOk(own, s1) && PoolBounded(c, s1.engine) && AllSingle(s1.running)
            && |s1.engine.pools.gpuFree| == |s.engine.pools.gpuFree| - n
            && Needs(c, s1.seqs, s1.waiting) == Needs(c, s.seqs, s.waiting[1..])
  {
    hide SchedulerOk, Allocate, PoolBounded, SetStatus, AllSingle, TotalLogicalBlocks, Needs;
    var g := s.waiting[0];
    var n := TotalLogicalBlocks(c, s.seqs, g.seqs);
    AdmitGroup(own, s, n);
    SamePoolBound(c, s.engine, Allocate(s.engine, g.seqs, n).value);
    FrontIsNew(own, s);
    assert g.seqs == [g.seqs[0]];
    AllocateLaw(s.engine, g.seqs[0], n);
    SinglePush(s.running, g);
    SetStatusKeys(s.seqs, g, Running);
    NeedsSame(c, s.seqs, SetStatus(s.seqs, g, Running), s.waiting[1..]);
  }

  // ----- The pass over the running queue

  /**
   How many groups keep running; each is given as whether its last logical block is full, and its number of blocks.
   */
  function Survivors(free: nat, q: seq<(bool, nat)>): (n: nat)
    ensures n <= |q|
    decreases |q|
  {
    if q == [] then 0
    else if !q[0].0 then 1 + Survivors(free, q[1..])
    else if free > 0 then 1 + Survivors(free - 1, q[1..])
    else if |q| == 1 then 0
    else Survivors(free + q[|q| - 1].1, q[..|q| - 1])
  }

  function Sizes(c: Config, seqs: map<SeqId, Sequence>, tables: Tables, q: seq<Group>): seq<(bool, nat)> {
    seq(|q|, k requires 0 <= k < |q| => Size(c, seqs, tables, q[k]))
  }

  function Size(c: Config, seqs: map<SeqId, Sequence>, tables: Tables, g: Group): (bool, nat) {
    if g.seqs == [] || g.seqs[0] !in tables then (false, 0)
    else (LastBlockFull(c.blockSize, Len(seqs, g.seqs[0])), |tables[g.seqs[0]]|)
  }

  /** The groups of the running queue that the counts say keep running. */
  function Keeping(c: Config, seqs: map<SeqId, Sequence>, tables: Tables, free: nat, q: seq<Group>): seq<Group> {
    q[..Survivors(free, Sizes(c, seqs, tables, q))]
  }

  lemma {:induction false} ReleaseAllExact(p: Pools, table: Table)
    requires NoDup(table) && (forall b :: b in table ==> b.dev.Gpu? && b in p.refs && p.refs[b] == 1)
    ensures ReleaseAll(p, table).Done? && |ReleaseAll(p, table).value.gpuFree| == |p.gpuFree| + |table|
    decreases |table|
  {
    if table != [] {
      NoDupTail(table);
      ReleaseAllExact(Release(p, table[0].dev, table[0]).value, table[1..]);
    }
  }

  /** Freeing a sequence that shares nothing gives back its blocks, each once. */
  lemma FreeExact(e: Engine, i: SeqId)
    requires Consistent(e) && i in e.tables && Exclusive(e.tables) && (forall b :: b in e.tables[i] ==> b.dev.Gpu?)
    ensures FreeGroup(e, [i]).Done? && |FreeGroup(e, [i]).value.pools.gpuFree| == |e.pools.gpuFree| + |e.tables[i]|
  {
    hide References, FreeListOk;
    var table := e.tables[i];
    forall b | b in table ensures b in e.pools.refs && e.pools.refs[b] == 1 {
      TableBlockLive(e, i, b);
      CountIs(e, b);
    }
    forall j, k | 0 <= j < k < |table| ensures table[j] != table[k] {
      if table[j] == table[k] {
        CountedOnceIsExclusive(e, i, j, i, k);
      }
    }
    ReleaseAllExact(e.pools, table);
    assert [i][1..] == [];
    assert FreeGroup(e, [i]) == FreeSequence(e, i) by {
      assert FreeGroup(FreeSequence(e, i).value, []) == FreeSequence(e, i);
    }
  }

  /** What the group in hand and the free blocks say about its guard. */
  lemma GuardIs(c: Config, s: State, g: Group)
    requires |g.seqs| == 1 && g.seqs[0] in s.seqs
    ensures CanAppend(c, s, g) <==> !LastBlockFull(c.blockSize, Len(s.seqs, g.seqs[0])) || |s.engine.pools.gpuFree| > 0
  {
    AtMostOne(g.seqs, FullSeqs(c, s.seqs));
  }

  /**
   What the pass knows of a group that has not been handled: its sequence, and its table as it was before the pass.
   */
  lemma InPass(c: Config, own: Owner, before: Engine, s: State, plan: Plan, kept: seq<Group>, hand: seq<Group>,
               swapOut: map<nat, nat>, copies: map<nat, seq<nat>>, g: Group)
    requires PassOk(own, before, s, plan, kept, hand, swapOut, copies)
    requires SinglePass(c, own, before.tables, s, kept, hand)
    requires g in s.running || g in hand
    ensures |g.seqs| == 1 && GroupOk(own, g) && g.id !in Ids(kept) && g.seqs[0] in s.seqs
    ensures g.seqs[0] in s.engine.tables
    ensures Consistent(s.engine) && (forall b :: b in s.engine.tables[g.seqs[0]] ==> b.dev.Gpu?)
    ensures g.seqs[0] in before.tables && |s.engine.tables[g.seqs[0]]| == |before.tables[g.seqs[0]]|
    ensures Size(c, s.seqs, s.engine.tables, g) == Size(c, s.seqs, before.tables, g)
  {
    hide Consistent, Keeps, PlanLive, CopiesApart, Untouched, IsInverse, IsCopyInverse, Slotted, Exclusive, NoSharing;
    assert GroupOk(own, g) && g.id in Ids(s.running) + Ids(hand);
    assert g.seqs[0] in g.seqs;
  }

  lemma MakeRoomOnce(c: Config, own: Owner, before: Engine, s: State, plan: Plan, kept: seq<Group>, g: Group,
                     swapOut: map<nat, nat>, copies: map<nat, seq<nat>>, preempted: seq<Group>)
    requires PassOk(own, before, s, plan, kept, [g], swapOut, copies) && SinglePass(c, own, before.tables, s, kept, [g])
    ensures MakeRoom(c, s, g, swapOut, preempted).Done?
    ensures var room := MakeRoom(c, s, g, swapOut, preempted).value;
            var free, n := |s.engine.pools.gpuFree|, |s.running| - 1;
            if !Size(c, s.seqs, before.tables, g).0 || free > 0 then
              !room.selfPreempted && room.state == s
            else if s.running == [] then
              room.selfPreempted && room.state.running == []
            else
              && !room.selfPreempted && room.state.running == s.running[..n]
              && |room.state.engine.pools.gpuFree| == free + Size(c, s.seqs, before.tables, s.running[n]).1
  {
    hide PassOk, Preempt, CanAppend, SinglePass, Size;
    MakeRoomSingle(c, own, before, s, plan, kept, g, swapOut, copies, preempted);
    assert g in [g];
    InPass(c, own, before, s, plan, kept, [g], swapOut, copies, g);
    GuardIs(c, s, g);
    SizeFull(c, s.seqs, before.tables, g);
    if !CanAppend(c, s, g) {
      if s.running == [] {
        assert [] + [g] == [g];
        var _ := PreemptSafe(own, before, s, plan, kept, [], g, swapOut, copies);
        PreemptSingle(s, g, swapOut);
      } else {
        OnePreemption(c, own, before, s, plan, kept, g, swapOut, copies);
      }
    }
  }

  lemma SizeFull(c: Config, seqs: map<SeqId, Sequence>, tables: Tables, g: Group)
    requires g.seqs != [] && g.seqs[0] in tables
    ensures Size(c, seqs, tables, g).0 <==> LastBlockFull(c.blockSize, Len(seqs, g.seqs[0]))
    ensures Size(c, seqs, tables, g).1 == |tables[g.seqs[0]]|
  {
  }

  lemma OnePreemption(c: Config, own: Owner, before: Engine, s: State, plan: Plan, kept: seq<Group>, g: Group,
                      swapOut: map<nat, nat>, copies: map<nat, seq<nat>>)
    requires PassOk(own, before, s, plan, kept, [g], swapOut, copies) && SinglePass(c, own, before.tables, s, kept, [g])
    requires s.running != []
    ensures var n := |s.running| - 1;
            var v, s1 := s.running[n], s.(running := s.running[..n]);
            && Preempt(s1, v, swapOut).Done?
            && var s2 := Preempt(s1, v, swapOut).value.0;
            && CanAppend(c, s2, g) && s2.running == s.running[..n]
            && |s2.engine.pools.gpuFree| == |s.engine.pools.gpuFree| + Size(c, s.seqs, before.tables, v).1
  {
    hide PassOk, CanAppend, Size, FreeGroup, SetStatus, Lengths;
    var n := |s.running| - 1;
    var v, s1 := s.running[n], s.(running := s.running[..n]);
    assert v in s.running && g in [g];
    TakeLast(own, before, s, plan, kept, g, swapOut, copies);
    assert [g] + [v] == [g, v];
    RoomAfterPreempt(c, own, before, s1, plan, kept, [g], v, swapOut, copies, g);
    InPass(c, own, before, s, plan, kept, [g], swapOut, copies, v);
    SizeFull(c, s.seqs, before.tables, v);
    FreeExact(s.engine, v.seqs[0]);
    assert v.seqs == [v.seqs[0]];
  }

  lemma KeepFree(c: Config, own: Owner, before: Engine, s: State, plan: Plan, kept: seq<Group>, g: Group,
                 swapOut: map<nat, nat>, copies: map<nat, seq<nat>>)
    requires PassOk(own, before, s, plan, kept, [g], swapOut, copies)
    requires SinglePass(c, own, before.tables, s, kept, [g]) && CanAppend(c, s, g)
    ensures AppendGroup(s.engine, g.seqs, FullSeqs(c, s.seqs), copies).Done?
    ensures |AppendGroup(s.engine, g.seqs, FullSeqs(c, s.seqs), copies).value.0.pools.gpuFree|
            == |s.engine.pools.gpuFree| - (if Size(c, s.seqs, before.tables, g).0 then 1 else 0)
  {
    hide PassOk, CanAppend, Size, SinglePass, AppendSlot, Consistent, SlotAppended;
    KeepSingle(c, own, before, s, plan, kept, g, swapOut, copies);
    assert g in [g];
    InPass(c, own, before, s, plan, kept, [g], swapOut, copies, g);
    SizeFull(c, s.seqs, before.tables, g);
    var i, full := g.seqs[0], FullSeqs(c, s.seqs);
    assert g.seqs == [i] && [i][1..] == [];
    assert i in full <==> LastBlockFull(c.blockSize, Len(s.seqs, i));
    AppendSlotLaw(s.engine, i, i in full);
    var (e, op) := AppendSlot(s.engine, i, i in full).value;
    FreeAfterAppend(s.engine, i, i in full, e, op);
    assert copies == AppendGroup(s.engine, g.seqs, full, copies).value.1;
    NoCopyMade(s.engine, i, full, copies);
  }

  lemma NoCopyMade(e: Engine, i: SeqId, full: set<SeqId>, copies: map<nat, seq<nat>>)
    requires AppendGroup(e, [i], full, copies).Done? && AppendGroup(e, [i], full, copies).value.1 == copies
    ensures AppendSlot(e, i, i in full).Done? && AppendSlot(e, i, i in full).value.1.None?
    ensures AppendGroup(e, [i], full, copies).value.0 == AppendSlot(e, i, i in full).value.0
  {
    hide AppendSlot;
    assert [i][1..] == [];
    var (e', op) := AppendSlot(e, i, i in full).value;
    if op.Some? {
      CopyIsNew(copies, op.value.0, op.value.1);
    }
  }

  lemma CopyIsNew(copies: map<nat, seq<nat>>, src: nat, dst: nat)
    ensures AddCopy(copies, src, dst) != copies
  {
    assert |AddCopy(copies, src, dst)[src]| == (if src in copies then |copies[src]| else 0) + 1;
  }

  lemma NoneKept(c: Config, s: State, tables: Tables)
    ensures Keeping(c, s.seqs, tables, |s.engine.pools.gpuFree|, []) == []
  {
  }

  lemma SameSizes(c: Config, seqs: map<SeqId, Sequence>, seqs': map<SeqId, Sequence>, tables: Tables, q: seq<Group>)
    requires SameTokens(seqs, seqs')
    ensures Sizes(c, seqs', tables, q) == Sizes(c, seqs, tables, q)
  {
  }

  /** The groups that keep running are a prefix of the queue whose length the counts give. */
  lemma {:induction false} ProcessSurvivors(c: Config, own: Owner, before: Engine, s: State, plan: Plan,
                                            kept: seq<Group>, ops: Ops, preempted: seq<Group>)
    requires PassOk(own, before, s, plan, kept, [], ops.swapOut, ops.copies)
    requires SinglePass(c, own, before.tables, s, kept, [])
    ensures Process(c, s, kept, ops, preempted).Done?
    ensures Process(c, s, kept, ops, preempted).value.0.running
            == kept + Keeping(c, s.seqs, before.tables, |s.engine.pools.gpuFree|, s.running)
    decreases |s.running|
  {
    hide PassOk, MakeRoom, AppendGroup, SinglePass, CanAppend, FullSeqs, AllSingle, Keeping;
    ProcessSingle(c, own, before, s, plan, kept, ops, preempted);
    if s.running == [] {
      assert Keeping(c, s.seqs, before.tables, |s.engine.pools.gpuFree|, []) == [] by { NoneKept(c, s, before.tables); }
      assert kept + [] == kept;
    } else {
      var g := s.running[0];
      var s1 := s.(running := s.running[1..]);
      TakeFirst(own, before, s, plan, kept, ops.swapOut, ops.copies);
      FirstInHand(c, own, before.tables, s, kept);
      MakeRoomSingle(c, own, before, s1, plan, kept, g, ops.swapOut, ops.copies, preempted);
      var plan1 := MakeRoomSafe(c, own, before, s1, plan, kept, g, ops.swapOut, ops.copies, preempted);
      TurnCounts(c, own, before, s, plan, kept, ops, preempted);
      var room := MakeRoom(c, s1, g, ops.swapOut, preempted).value;
      var ops1 := ops.(swapOut := room.swapOut);
      if room.selfPreempted {
        assert Process(c, room.state, kept, ops1, room.preempted).value.0.running == kept;
        assert kept + [] == kept;
      } else {
        var full := FullSeqs(c, room.state.seqs);
        KeepSingle(c, own, before, room.state, plan1, kept, g, room.swapOut, ops.copies);
        var plan2 := KeepGroup(c, own, before, room.state, plan1, kept, g, room.swapOut, ops.copies, full);
        var (e, copies) := AppendGroup(room.state.engine, g.seqs, full, ops.copies).value;
        var s2 := room.state.(engine := e);
        ProcessSurvivors(c, own, before, s2, plan2, kept + [g], ops1.(copies := copies), room.preempted);
        var keeping := Keeping(c, s2.seqs, before.tables, |e.pools.gpuFree|, s2.running);
        assert kept + [g] + keeping == kept + ([g] + keeping);
      }
    }
  }

  /** One turn of the pass, by counts. */
  lemma TurnCounts(c: Config, own: Owner, before: Engine, s: State, plan: Plan, kept: seq<Group>, ops: Ops,
                   preempted: seq<Group>)
    requires PassOk(own, before, s, plan, kept, [], ops.swapOut, ops.copies) && s.running != []
    requires SinglePass(c, own, before.tables, s, kept, [])
    ensures var g, s1 := s.running[0], s.(running := s.running[1..]);
            && MakeRoom(c, s1, g, ops.swapOut, preempted).Done?
            && var room := MakeRoom(c, s1, g, ops.swapOut, preempted).value;
            var all := Keeping(c, s.seqs, before.tables, |s.engine.pools.gpuFree|, s.running);
            if room.selfPreempted then room.state.running == [] && all == []
            else
              && AppendGroup(room.state.engine, g.seqs, FullSeqs(c, room.state.seqs), ops.copies).Done?
              && var e := AppendGroup(room.state.engine, g.seqs, FullSeqs(c, room.state.seqs), ops.copies).value.0;
              all == [g] + Keeping(c, room.state.seqs, before.tables, |e.pools.gpuFree|, room.state.running)
  {
    hide PassOk, MakeRoom, AppendGroup, SinglePass, CanAppend, FullSeqs, Size, SameTokens;
    var g, s1 := s.running[0], s.(running := s.running[1..]);
    TakeFirst(own, before, s, plan, kept, ops.swapOut, ops.copies);
    FirstInHand(c, own, before.tables, s, kept);
    MakeRoomSingle(c, own, before, s1, plan, kept, g, ops.swapOut, ops.copies, preempted);
    MakeRoomOnce(c, own, before, s1, plan, kept, g, ops.swapOut, ops.copies, preempted);
    MakeRoomLens(c, s1, g, ops.swapOut, preempted);
    var plan1 := MakeRoomSafe(c, own, before, s1, plan, kept, g, ops.swapOut, ops.copies, preempted);
    var room := MakeRoom(c, s1, g, ops.swapOut, preempted).value;
    if room.selfPreempted {
      SelfPreempted(c, s, before.tables);
    } else {
      KeepFree(c, own, before, room.state, plan1, kept, g, room.swapOut, ops.copies);
      var e := AppendGroup(room.state.engine, g.seqs, FullSeqs(c, room.state.seqs), ops.copies).value.0;
      var s2 := room.state.(engine := e);
      SameSizes(c, s.seqs, s2.seqs, before.tables, s2.running);
      SameSize(c, s.seqs, s2.seqs, before.tables, g);
      TableThere(c, own, before, s, plan, kept, ops);
      LastOfRest(s.running);
      SurvivorsStep(c, s, s2, before.tables, g);
    }
  }

  lemma LastOfRest(q: seq<Group>)
    requires q != []
    ensures |q| > 1 ==> q[1..][|q| - 2] == q[|q| - 1] && q[1..][..|q| - 2] == q[1..|q| - 1]
  {
  }

  lemma SelfPreempted(c: Config, s: State, tables: Tables)
    requires |s.running| == 1 && Size(c, s.seqs, tables, s.running[0]).0 && |s.engine.pools.gpuFree| == 0
    ensures Survivors(|s.engine.pools.gpuFree|, Sizes(c, s.seqs, tables, s.running)) == 0
  {
  }

  lemma SameSize(c: Config, seqs: map<SeqId, Sequence>, seqs': map<SeqId, Sequence>, tables: Tables, g: Group)
    requires SameTokens(seqs, seqs')
    ensures Size(c, seqs', tables, g) == Size(c, seqs, tables, g)
  {
  }

  /** The last group of the queue has blocks to give back. */
  lemma TableThere(c: Config, own: Owner, before: Engine, s: State, plan: Plan, kept: seq<Group>, ops: Ops)
    requires PassOk(own, before, s, plan, kept, [], ops.swapOut, ops.copies) && s.running != []
    requires SinglePass(c, own, before.tables, s, kept, [])
    ensures Size(c, s.seqs, before.tables, s.running[|s.running| - 1]).1 > 0
  {
    hide PassOk, Lengths, Exclusive, Size;
    var v := s.running[|s.running| - 1];
    assert v in s.running;
    InPass(c, own, before, s, plan, kept, [], ops.swapOut, ops.copies, v);
    SizeFull(c, s.seqs, before.tables, v);
  }

  lemma FirstInHand(c: Config, own: Owner, before: Tables, s: State, kept: seq<Group>)
    requires SinglePass(c, own, before, s, kept, []) && s.running != []
    ensures SinglePass(c, own, before, s.(running := s.running[1..]), kept, [s.running[0]])
  {
    hide Lengths, Exclusive, NoEmptyTable;
  }

  lemma SurvivorsStep(c: Config, s: State, s2: State, tables: Tables, g: Group)
    requires s.running != [] && g == s.running[0]
    requires var sz, free, n := Size(c, s.seqs, tables, g), |s.engine.pools.gpuFree|, |s.running| - 1;
             if !sz.0 || free > 0 then
               s2.running == s.running[1..] && |s2.engine.pools.gpuFree| == free - (if sz.0 then 1 else 0)
             else
               && n > 0 && s2.running == s.running[1..n]
               && |s2.engine.pools.gpuFree| == free + Size(c, s.seqs, tables, s.running[n]).1 - 1
               && Size(c, s.seqs, tables, s.running[n]).1 > 0
    ensures var k := Survivors(|s2.engine.pools.gpuFree|, Sizes(c, s.seqs, tables, s2.running));
            && Survivors(|s.engine.pools.gpuFree|, Sizes(c, s.seqs, tables, s.running)) == 1 + k
            && [g] + s2.running[..k] == s.running[..1 + k]
  {
    hide Size, Sizes, Survivors;
    var sizes, n := Sizes(c, s.seqs, tables, s.running), |s.running| - 1;
    SizesSlice(c, s.seqs, tables, s.running, 1, n + 1);
    assert s.running[1..n + 1] == s.running[1..] && sizes[1..n + 1] == sizes[1..];
    if n > 0 {
      SizesSlice(c, s.seqs, tables, s.running, 1, n);
      assert sizes[..n][1..] == sizes[1..n];
    }
    SurvivorsUnfold(|s.engine.pools.gpuFree|, sizes);
    var k := Survivors(|s2.engine.pools.gpuFree|, Sizes(c, s.seqs, tables, s2.running));
    FrontAndMore(s.running, s2.running, if |s2.running| == n then n + 1 else n, k);
  }

  lemma FrontAndMore(q: seq<Group>, p: seq<Group>, m: nat, k: nat)
    requires 0 < m <= |q| && p == q[1..m] && k <= |p|
    ensures [q[0]] + p[..k] == q[..1 + k]
  {
  }

  lemma SurvivorsUnfold(free: nat, q: seq<(bool, nat)>)
    requires q != []
    ensures q[0].0 && free == 0 && |q| > 1 && q[|q| - 1].1 > 0 ==>
              Survivors(free, q) == 1 + Survivors(q[|q| - 1].1 - 1, q[1..|q| - 1])
    ensures q[0].0 && free > 0 ==> Survivors(free, q) == 1 + Survivors(free - 1, q[1..])
    ensures !q[0].0 ==> Survivors(free, q) == 1 + Survivors(free, q[1..])
  {
    if q[0].0 && free == 0 && |q| > 1 && q[|q| - 1].1 > 0 {
      var p := q[..|q| - 1];
      assert p[1..] == q[1..|q| - 1] && p[0] == q[0];
      assert Survivors(free, q) == Survivors(q[|q| - 1].1, p);
    }
  }

  lemma SizesSlice(c: Config, seqs: map<SeqId, Sequence>, tables: Tables, q: seq<Group>, a: nat, b: nat)
    requires a <= b <= |q|
    ensures |Sizes(c, seqs, tables, q)| == |q| && Sizes(c, seqs, tables, q[a..b]) == Sizes(c, seqs, tables, q)[a..b]
    ensures forall k :: 0 <= k < |q| ==> Sizes(c, seqs, tables, q)[k] == Size(c, seqs, tables, q[k])
  {
  }

  /** The groups that keep running in a step without admission. */
  lemma DecodeKeeps(c: Config, own: Owner, s: State)
    requires SingleOk(own, s)
    ensures Decode(c, s).Done?
    ensures Decode(c, s).value.0.running
            == Keeping(c, s.seqs, s.engine.tables, |s.engine.pools.gpuFree|, LatestFirst(s.running))
  {
    hide SchedulerOk, PassOk, Process, LatestFirst, Exclusive, NoEmptyTable, Keeping;
    StepStarts(own, s);
    LatestFirstDescending(s.running);
    LatestFirstDescending([]);
    var s0 := s.(running := LatestFirst(s.running));
    assert Lengths(c, own, s.seqs, s.engine.tables, s.engine.tables, Ids([])) by { OwnedTables(own, s); }
    ProcessSurvivors(c, own, s.engine, s0, NoOps, [], NoMaps, []);
    ProcessOrder(c, s0, [], NoMaps, []);
    var (s1, ops, preempted) := Process(c, s0, [], NoMaps, []).value;
    assert LatestFirst(s1.swappedOut) == [] && s1.(swappedOut := []) == s1;
    var keeping := Keeping(c, s.seqs, s.engine.tables, |s.engine.pools.gpuFree|, s0.running);
    assert [] + keeping == keeping;
  }

  // ----- Panics

  /**
   When the next iteration of a run panics, from what is known before it: the numbers of free and required blocks say
   that admission panics; or they say that nothing is admitted, and nothing keeps running or a sequence that does was
   last admitted with a multiple of the block size and does not have one now.
   */
  lemma NextIterationPanicsIff(c: Config, numCpuBlocks: nat, steps: seq<Step>, stop: set<SeqId>)
    requires IsRun(c, numCpuBlocks, steps)
    ensures var s := Generate(c, numCpuBlocks, steps).value.state;
            var free := |s.engine.pools.gpuFree|;
            var a := Admissible(c.numGpuBlocks, free, c.maxNumSeqs, |s.running|, Needs(c, s.seqs, s.waiting));
            var keep := Keeping(c, s.seqs, s.engine.tables, free, LatestFirst(s.running));
            Generate(c, numCpuBlocks, steps + [Iteration(stop)]).Panic? <==>
            || a.Panic?
            || (&& a.value == 0
                && (|| keep == []
                    || exists g :: && g in keep && g.seqs != []
                                   && PastTable(c, s, History(c, numCpuBlocks, steps), g.seqs[0])))
  {
    hide Generate, Admit, Decode, History, Keeping, Admissible, Needs, LatestFirst, GenerationOk, PastTable, CanAppend,
         Iterate;
    GenerateOk(c, numCpuBlocks, steps);
    var w, admitted := Generate(c, numCpuBlocks, steps).value, History(c, numCpuBlocks, steps);
    OneMore(c, numCpuBlocks, steps, stop);
    IteratePanicsIff(c, numCpuBlocks, w, admitted, stop);
    TablesNotEmpty(c, numCpuBlocks, w, admitted);
    AdmitCountsIn(c, w);
    DecodeKeeps(c, w.own, w.state);
    DecodeSingle(c, w.own, w.state);
    KeptTables(c, w.own, w.state, admitted, Decode(c, w.state).value.0);
  }

  lemma OneMore(c: Config, numCpuBlocks: nat, steps: seq<Step>, stop: set<SeqId>)
    requires Generate(c, numCpuBlocks, steps).Done?
    ensures Generate(c, numCpuBlocks, steps + [Iteration(stop)]) ==
            Iterate(c, Generate(c, numCpuBlocks, steps).value, stop)
  {
    hide Iterate;
    assert (steps + [Iteration(stop)])[..|steps|] == steps;
  }

  lemma AdmitCountsIn(c: Config, w: World)
    requires SingleOk(w.own, w.state) && PoolBounded(c, w.state.engine)
    ensures var s := w.state;
            var a := Admissible(c.numGpuBlocks, |s.engine.pools.gpuFree|, c.maxNumSeqs, |s.running|,
                                Needs(c, s.seqs, s.waiting));
            && (Admit(c, s, [], []).Done? <==> a.Done?)
            && (a.Done? ==> (Admit(c, s, [], []).value.1 == [] <==> a.value == 0))
  {
    hide Admit, Admissible, Needs;
    AdmitCounts(c, w.own, w.state, [], []);
  }

  /** The tables after the step are those of the sequences that keep running. */
  lemma KeptTables(c: Config, own: Owner, s: State, admitted: map<SeqId, nat>, s': State)
    requires SingleOk(own, s')
    ensures (exists i :: i in s'.engine.tables && PastTable(c, s, admitted, i)) <==>
            exists g :: g in s'.running && g.seqs != [] && PastTable(c, s, admitted, g.seqs[0])
  {
    hide PastTable, Exclusive, NoEmptyTable, InBatch;
    if i :| i in s'.engine.tables && PastTable(c, s, admitted, i) {
      TableInBatch(own, s', i);
      assert exists g :: g in s'.running && i in g.seqs by { assert InBatch(s'.running, i); BatchGroup(s'.running, i); }
      var g :| g in s'.running && i in g.seqs;
      assert g.seqs == [i];
    }
    if g :| g in s'.running && g.seqs != [] && PastTable(c, s, admitted, g.seqs[0]) {
      assert g.seqs[0] in g.seqs;
      GroupInBatch(s'.running, g, g.seqs[0]);
      BatchHasTable(own, s', g.seqs[0]);
    }
  }

  lemma BatchGroup(batch: seq<Group>, i: SeqId)
    requires InBatch(batch, i)
    ensures exists g :: g in batch && i in g.seqs
  {
  }

  lemma GroupInBatch(batch: seq<Group>, g: Group, i: SeqId)
    requires g in batch && i in g.seqs
    ensures InBatch(batch, i)
  {
  }
}
