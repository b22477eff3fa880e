/**
 What becomes of the groups that a step preempts, whatever their sizes: which are requeued, which are swapped out and
 which are aborted, in what order they are queued, and with what status. All of it follows from the tables and the
 number of free CPU blocks before the pass.
 */
module Preemption {
  import opened Outcomes
  import opened Pools
  import opened Engine
  import opened EngineLaws
  import opened GroupCounts
  import opened MemoryOps
  import opened StepInvariant
  import opened Scheduler
  import opened Generation
  import opened ScheduleSafety
  import opened ScheduleTheorem
  import opened QueueOrder
  import opened DecodeWrites
  import opened SwapInRoom

  // ----- The guards, by counting

  /** The entries in the tables of a group, one for each place. */
  ghost function Entries(tables: Tables, ids: seq<SeqId>): set<(SeqId, nat)> {
    set i: SeqId, k: nat | i in ids && i in tables && k < |tables[i]| :: (i, k)
  }

  ghost function Places(i: SeqId, n: nat): set<(SeqId, nat)> {
    set k: nat | k < n :: (i, k)
  }

  lemma {:induction false} PlacesCount(i: SeqId, n: nat)
    ensures |Places(i, n)| == n
  {
    if n > 0 {
      PlacesCount(i, n - 1);
      assert Places(i, n) == Places(i, n - 1) + {(i, (n - 1) as nat)};
    }
  }

  lemma EntriesSplit(tables: Tables, ids: seq<SeqId>)
    requires NoDup(ids) && ids != []
    ensures var n := if ids[0] in tables then |tables[ids[0]]| else 0;
            && Entries(tables, ids) == Places(ids[0], n) + Entries(tables, ids[1..])
            && Places(ids[0], n) !! Entries(tables, ids[1..])
  {
    NoDupTail(ids);
    hide NoDup;
    var n := if ids[0] in tables then |tables[ids[0]]| else 0;
    forall e ensures e in Entries(tables, ids) <==> e in Places(ids[0], n) || e in Entries(tables, ids[1..]) {
      assert e in Places(ids[0], n) <==> e.0 == ids[0] && e.1 < n;
      assert e.0 in ids <==> e.0 == ids[0] || e.0 in ids[1..];
    }
  }

  lemma {:induction false} EntriesCount(tables: Tables, ids: seq<SeqId>)
    requires NoDup(ids)
    ensures |Entries(tables, ids)| == TotalLength(tables, ids)
    decreases |ids|
  {
    if ids == [] {
      assert Entries(tables, ids) == {};
    } else {
      NoDupTail(ids);
      EntriesSplit(tables, ids);
      EntriesCount(tables, ids[1..]);
      hide Entries, Places, NoDup;
      PlacesCount(ids[0], if ids[0] in tables then |tables[ids[0]]| else 0);
    }
  }

  /** Both guards compare the number of entries, not of different blocks, with the free blocks of the other device. */
  lemma SwapGuards(e: Engine, ids: seq<SeqId>)
    requires NoDup(ids)
    ensures CanSwapOut(e, ids) <==> |Entries(e.tables, ids)| <= |e.pools.cpuFree|
    ensures CanSwapIn(e, ids) <==> |Entries(e.tables, ids)| <= |e.pools.gpuFree|
  {
    EntriesCount(e.tables, ids);
  }

  /** The guard of an append counts the sequences of the group that have a last logical block and have filled it. */
  lemma {:induction false} FullCount(ids: seq<SeqId>, full: set<SeqId>)
    requires NoDup(ids)
    ensures BlocksToAppend(ids, full) == |FullIn(ids, full)|
    decreases |ids|
  {
    if ids == [] {
      assert FullIn(ids, full) == {};
    } else {
      NoDupTail(ids);
      FullCount(ids[1..], full);
      FullSplit(ids, full);
    }
  }

  ghost function FullIn(ids: seq<SeqId>, full: set<SeqId>): set<SeqId> {
    set i | i in ids && i in full
  }

  lemma FullSplit(ids: seq<SeqId>, full: set<SeqId>)
    requires ids != [] && NoDup(ids)
    ensures FullIn(ids, full) == FullIn(ids[1..], full) + if ids[0] in full then {ids[0]} else {}
    ensures ids[0] !in FullIn(ids[1..], full)
  {
    NoDupTail(ids);
    hide NoDup;
    forall i ensures i in FullIn(ids, full) <==> i in FullIn(ids[1..], full) || (i == ids[0] && i in full) {
      assert i in ids <==> i == ids[0] || i in ids[1..];
    }
  }

  lemma AppendGuard(c: Config, s: State, g: Group)
    requires NoDup(g.seqs)
    ensures CanAppend(c, s, g) <==>
            |set i | i in g.seqs && i in s.seqs && c.blockSize > 0 && s.seqs[i].len > 0
                     && s.seqs[i].len % c.blockSize == 0| <= |s.engine.pools.gpuFree|
  {
    FullCount(g.seqs, FullSeqs(c, s.seqs));
    assert FullIn(g.seqs, FullSeqs(c, s.seqs))
        == set i | i in g.seqs && i in s.seqs && c.blockSize > 0 && s.seqs[i].len > 0
                   && s.seqs[i].len % c.blockSize == 0;
  }

  // ----- Free CPU blocks

  lemma {:induction false} AppendKeepsCpu(e: Engine, ids: seq<SeqId>, full: set<SeqId>, copies: map<nat, seq<nat>>)
    requires AppendGroup(e, ids, full, copies).Done?
    ensures AppendGroup(e, ids, full, copies).value.0.pools.cpuFree == e.pools.cpuFree
    decreases |ids|
  {
    if ids != [] {
      SlotKeepsCpu(e, ids[0], ids[0] in full);
      hide AppendSlot;
      var (e', op) := AppendSlot(e, ids[0], ids[0] in full).value;
      AppendKeepsCpu(e', ids[1..], full, if op.Some? then AddCopy(copies, op.value.0, op.value.1) else copies);
    }
  }

  lemma SlotKeepsCpu(e: Engine, s: SeqId, needsBlock: bool)
    requires AppendSlot(e, s, needsBlock).Done?
    ensures AppendSlot(e, s, needsBlock).value.0.pools.cpuFree == e.pools.cpuFree
  {
  }

  /** A swap-out takes as many CPU blocks as the group has different blocks. */
  lemma SwapOutTakes(e: Engine, ids: seq<SeqId>) returns (mapping: map<nat, Block>)
    requires Consistent(e) && NoDup(ids) && CanSwapOut(e, ids)
    requires forall s :: s in ids ==> s in e.tables
    requires forall s, b :: s in ids && b in e.tables[s] ==> b.dev == Gpu
    ensures SwapOut(e, ids).Done?
    ensures var e' := SwapOut(e, ids).value.0;
            && InjectiveTo(mapping, Cpu) && Moved(e.tables, ids, mapping, e'.tables)
            && |e'.pools.cpuFree| == |e.pools.cpuFree| - |GroupBlockIds(e.tables, ids)|
  {
    hide Consistent, InjectiveTo, Moved, References, GroupBlockIds, NoDup, TotalLength;
    MoveGroupLaw(e, ids, Cpu, Gpu, map[]) by { EmptyMapping(); }
    mapping := MoveGroup(e, ids, Cpu, Gpu, map[]).value.1;
    MoveGroupTakes(e, ids, Cpu, Gpu, map[]);
    assert |mapping.Keys| == |mapping|;
  }

  lemma EmptyMapping()
    ensures InjectiveTo(map[], Cpu)
  {
  }

  // ----- One preemption

  /** The statuses after those of `ids` were set. */
  ghost predicate Marked(seqs: map<SeqId, Sequence>, seqs': map<SeqId, Sequence>, ids: seq<SeqId>, status: Status) {
    && seqs'.Keys == seqs.Keys
    && (forall i :: i in seqs ==> seqs'[i].len == seqs[i].len)
    && (forall i :: i in seqs ==> seqs'[i].status == if i in ids then status else seqs[i].status)
  }

  /** All blocks of the group are on the CPU, in tables of the old lengths. */
  ghost predicate OnCpu(before: Tables, tables: Tables, ids: seq<SeqId>) {
    forall i :: i in ids ==>
      && i in before && i in tables && |tables[i]| == |before[i]|
      && (forall b :: b in tables[i] ==> b.dev == Cpu)
  }

  ghost predicate Tableless(tables: Tables, ids: seq<SeqId>) {
    forall i :: i in ids ==> i !in tables
  }

  /**
   A group of one sequence goes to the head of `waiting`. Any other is swapped out, at the end of `swapped_out`, if the
   CPU has a free block for each of its entries, and is aborted otherwise.
   */
  lemma PreemptOutcome(own: Owner, before: Engine, s: State, plan: Plan, kept: seq<Group>, rest: seq<Group>, v: Group,
                       swapOut: map<nat, nat>, copies: map<nat, seq<nat>>)
    requires PassOk(own, before, s, plan, kept, rest + [v], swapOut, copies)
    ensures Preempt(s, v, swapOut).Done?
    ensures var s' := Preempt(s, v, swapOut).value.0;
            var free := |s.engine.pools.cpuFree|;
            s'.running == s.running &&
            if |v.seqs| == 1 then
              && s'.waiting == [v] + s.waiting && s'.swappedOut == s.swappedOut
              && Marked(s.seqs, s'.seqs, v.seqs, Waiting)
              && Tableless(s'.engine.tables, v.seqs) && |s'.engine.pools.cpuFree| == free
            else if |Entries(s.engine.tables, v.seqs)| <= free then
              && s'.waiting == s.waiting && s'.swappedOut == s.swappedOut + [v]
              && Marked(s.seqs, s'.seqs, v.seqs, Status.Swapped)
              && OnCpu(s.engine.tables, s'.engine.tables, v.seqs)
              && |s'.engine.pools.cpuFree| == free - |GroupBlockIds(s.engine.tables, v.seqs)|
            else
              && s'.waiting == s.waiting && s'.swappedOut == s.swappedOut
              && Marked(s.seqs, s'.seqs, v.seqs, FinishedAborted)
              && Tableless(s'.engine.tables, v.seqs) && |s'.engine.pools.cpuFree| == free
  {
    hide PassOk, FreeGroup, SwapOut, CanSwapOut, RemoveGroup, Consistent, NoDup, Entries, GroupBlockIds, Moved;
    ClosedInHand(own, before, s, plan, kept, rest, v, swapOut, copies);
    SwapGuards(s.engine, v.seqs);
    if |v.seqs| != 1 && CanSwapOut(s.engine, v.seqs) {
      var mapping := SwapOutTakes(s.engine, v.seqs);
      MovedOnCpu(s.engine.tables, v.seqs, mapping, SwapOut(s.engine, v.seqs).value.0.tables);
    } else {
      FreeGroupLaw(s.engine, v.seqs);
      NotQueued(own, before, s, plan, kept, rest, v, swapOut, copies);
      RemoveAbsent(s.waiting, v.id);
      RemoveAbsent(s.running, v.id);
      RemoveAbsent(s.swappedOut, v.id);
    }
  }

  lemma NotQueued(own: Owner, before: Engine, s: State, plan: Plan, kept: seq<Group>, rest: seq<Group>, v: Group,
                  swapOut: map<nat, nat>, copies: map<nat, seq<nat>>)
    requires PassOk(own, before, s, plan, kept, rest + [v], swapOut, copies)
    ensures v.id !in Ids(s.waiting) && v.id !in Ids(s.running) && v.id !in Ids(s.swappedOut)
  {
    hide StepOk, IsInverse, IsCopyInverse, Slotted;
    HandLast(own, s, kept, rest, v);
  }

  lemma MovedOnCpu(tables: Tables, ids: seq<SeqId>, mapping: map<nat, Block>, tables': Tables)
    requires Closed(tables, ids) && InjectiveTo(mapping, Cpu) && Moved(tables, ids, mapping, tables')
    ensures OnCpu(tables, tables', ids)
  {
    forall i, b | i in ids && b in tables'[i] ensures b.dev == Cpu {
      var j :| 0 <= j < |tables'[i]| && tables'[i][j] == b;
      assert tables'[i][j] == mapping[tables[i][j].id];
    }
  }

  // ----- What becomes of the preempted groups

  /** The groups requeued, swapped out and aborted so far, and the CPU blocks that are left. */
  datatype Fate = Fate(requeued: seq<Group>, swapped: seq<Group>, aborted: seq<Group>, cpuFree: int)

  ghost function SettleOne(tables: Tables, f: Fate, g: Group): Fate {
    if |g.seqs| == 1 then
      f.(requeued := [g] + f.requeued)
    else if |Entries(tables, g.seqs)| <= f.cpuFree then
      f.(swapped := f.swapped + [g], cpuFree := f.cpuFree - |GroupBlockIds(tables, g.seqs)|)
    else
      f.(aborted := f.aborted + [g])
  }

  /** The groups of `preempted` settled in their order, from their tables before the pass. */
  ghost function Settle(tables: Tables, f: Fate, preempted: seq<Group>): Fate {
    if preempted == [] then f
    else SettleOne(tables, Settle(tables, f, preempted[..|preempted| - 1]), preempted[|preempted| - 1])
  }

  lemma {:induction false} SettleAppend(tables: Tables, f: Fate, a: seq<Group>, b: seq<Group>)
    ensures Settle(tables, f, a + b) == Settle(tables, Settle(tables, f, a), b)
    decreases |b|
  {
    hide SettleOne;
    if b == [] {
      assert a + b == a;
    } else {
      assert (a + b)[..|a + b| - 1] == a + b[..|b| - 1];
      SettleAppend(tables, f, a, b[..|b| - 1]);
    }
  }

  lemma SettleSingle(tables: Tables, f: Fate, g: Group)
    ensures Settle(tables, f, [g]) == SettleOne(tables, f, g)
  {
    assert [g][..0] == [];
  }

  function StatusOf(own: Owner, f: Fate, i: SeqId, status: Status): Status {
    if i !in own then status
    else if InQueue(f.requeued, own[i]) then Waiting
    else if InQueue(f.swapped, own[i]) then Status.Swapped
    else if InQueue(f.aborted, own[i]) then FinishedAborted
    else status
  }

  predicate InQueue(q: seq<Group>, id: nat) {
    exists k :: 0 <= k < |q| && q[k].id == id
  }

  lemma InQueueIds(q: seq<Group>, id: nat)
    ensures InQueue(q, id) <==> id in Ids(q)
  {
  }

  /** Statuses are those of the fates; lengths stay. */
  ghost predicate Statuses(own: Owner, seqs: map<SeqId, Sequence>, seqs': map<SeqId, Sequence>, f: Fate) {
    && seqs'.Keys == seqs.Keys
    && (forall i :: i in seqs ==> seqs'[i].len == seqs[i].len)
    && (forall i :: i in seqs ==> seqs'[i].status == StatusOf(own, f, i, seqs[i].status))
  }

  ghost function Settled(f: Fate): set<nat> {
    Ids(f.requeued) + Ids(f.swapped) + Ids(f.aborted)
  }

  /**
   The state in the pass, from the state `s0` at its start and the fates so far; `todo` are the groups still to come.
   */
  ghost predicate FateOk(own: Owner, s0: State, s: State, f: Fate, todo: set<nat>) {
    && s.waiting == f.requeued + s0.waiting && s.swappedOut == s0.swappedOut + f.swapped
    && |s.engine.pools.cpuFree| == f.cpuFree
    && SameFor(own, s0.engine.tables, s.engine.tables, todo)
    && Statuses(own, s0.seqs, s.seqs, f) && Settled(f) !! todo
  }

  lemma StatusesOne(own: Owner, seqs: map<SeqId, Sequence>, now: map<SeqId, Sequence>, now': map<SeqId, Sequence>,
                    tables: Tables, f: Fate, v: Group)
    requires Statuses(own, seqs, now, f) && GroupOk(own, v) && v.id !in Settled(f)
    requires var f' := SettleOne(tables, f, v);
             Marked(now, now', v.seqs, if f'.requeued != f.requeued then Waiting
                                       else if f'.swapped != f.swapped then Status.Swapped else FinishedAborted)
    ensures Statuses(own, seqs, now', SettleOne(tables, f, v))
    ensures Settled(SettleOne(tables, f, v)) == Settled(f) + {v.id}
  {
    hide Entries, GroupBlockIds, InQueue, GroupOk;
    var f' := SettleOne(tables, f, v);
    SettledOne(tables, f, v);
    forall i | i in seqs ensures now'[i].status == StatusOf(own, f', i, seqs[i].status) {
      assert i in v.seqs <==> i in own && own[i] == v.id by { InGroup(own, v, i); }
    }
  }

  lemma InGroup(own: Owner, v: Group, i: SeqId)
    requires GroupOk(own, v)
    ensures i in v.seqs <==> i in own && own[i] == v.id
  {
  }

  /** Where the group is after it was settled, and that no other has moved. */
  lemma SettledOne(tables: Tables, f: Fate, v: Group)
    requires v.id !in Settled(f)
    ensures var f' := SettleOne(tables, f, v);
            && Settled(f') == Settled(f) + {v.id}
            && (f'.requeued != f.requeued <==> |v.seqs| == 1)
            && (f'.swapped != f.swapped <==> |v.seqs| != 1 && |Entries(tables, v.seqs)| <= f.cpuFree)
            && (InQueue(f'.requeued, v.id) <==> f'.requeued != f.requeued)
            && (InQueue(f'.swapped, v.id) <==> f'.swapped != f.swapped)
            && (InQueue(f'.aborted, v.id) <==> f'.requeued == f.requeued && f'.swapped == f.swapped)
            && (forall id :: id != v.id ==>
                  && (InQueue(f'.requeued, id) <==> InQueue(f.requeued, id))
                  && (InQueue(f'.swapped, id) <==> InQueue(f.swapped, id))
                  && (InQueue(f'.aborted, id) <==> InQueue(f.aborted, id)))
  {
    hide Entries, GroupBlockIds, InQueue;
    SplitQueue([v], f.requeued);
    SplitQueue(f.swapped, [v]);
    SplitQueue(f.aborted, [v]);
    forall id ensures InQueue([v], id) <==> id == v.id {
      InQueueIds([v], id);
    }
    assert f.requeued != [v] + f.requeued by { assert |[v] + f.requeued| > |f.requeued|; }
    assert f.swapped != f.swapped + [v] by { assert |f.swapped + [v]| > |f.swapped|; }
    InQueueIds(f.requeued, v.id);
    InQueueIds(f.swapped, v.id);
    InQueueIds(f.aborted, v.id);
  }

  lemma SplitQueue(a: seq<Group>, b: seq<Group>)
    ensures Ids(a + b) == Ids(a) + Ids(b)
    ensures forall id :: InQueue(a + b, id) <==> InQueue(a, id) || InQueue(b, id)
  {
    assert forall g :: g in a + b <==> g in a || g in b;
    forall id ensures InQueue(a + b, id) <==> InQueue(a, id) || InQueue(b, id) {
      InQueueIds(a + b, id);
      InQueueIds(a, id);
      InQueueIds(b, id);
    }
  }

  lemma SameEntries(tables: Tables, tables': Tables, ids: seq<SeqId>)
    requires SameOn(tables, tables', ids)
    ensures Entries(tables', ids) == Entries(tables, ids) && GroupBlockIds(tables', ids) == GroupBlockIds(tables, ids)
  {
  }

  lemma PreemptFate(own: Owner, before: Engine, s0: State, s: State, plan: Plan, kept: seq<Group>, rest: seq<Group>,
                    v: Group, swapOut: map<nat, nat>, copies: map<nat, seq<nat>>, f: Fate)
    requires PassOk(own, before, s, plan, kept, rest + [v], swapOut, copies)
    requires FateOk(own, s0, s, f, Ids(rest + [v]) + Ids(s.running))
    ensures Preempt(s, v, swapOut).Done?
    ensures FateOk(own, s0, Preempt(s, v, swapOut).value.0, SettleOne(s0.engine.tables, f, v),
                   Ids(rest) + Ids(s.running))
  {
    hide PassOk, Preempt, Entries, GroupBlockIds, Statuses, SameFor, Settled, Marked, Closed, NoDup, Consistent,
         GroupOk,
         OnCpu, Tableless;
    PreemptOutcome(own, before, s, plan, kept, rest, v, swapOut, copies);
    var s' := Preempt(s, v, swapOut).value.0;
    var f' := SettleOne(s0.engine.tables, f, v);
    ClosedInHand(own, before, s, plan, kept, rest, v, swapOut, copies);
    SplitQueue(rest, [v]);
    assert Ids([v]) == {v.id};
    var todo := Ids(rest) + Ids(s.running);
    GroupSame(own, s0.engine.tables, s.engine.tables, Ids(rest + [v]) + Ids(s.running), v);
    SameEntries(s0.engine.tables, s.engine.tables, v.seqs);
    PreemptOthers(own, before, s, plan, kept, rest, v, swapOut, copies, todo);
    SameForTrans(own, s0.engine.tables, s.engine.tables, s'.engine.tables, Ids(rest + [v]) + Ids(s.running), todo);
    assert (Ids(rest + [v]) + Ids(s.running)) * todo == todo;
    assert f.requeued != [v] + f.requeued by { assert |[v] + f.requeued| > |f.requeued|; }
    assert f.swapped != f.swapped + [v] by { assert |f.swapped + [v]| > |f.swapped|; }
    StatusesOne(own, s0.seqs, s.seqs, s'.seqs, s0.engine.tables, f, v);
    assert s'.waiting == f'.requeued + s0.waiting;
    assert s'.swappedOut == s0.swappedOut + f'.swapped;
  }

  // ----- The pass

  lemma ReversedPush(q: seq<Group>, g: Group)
    ensures Reversed([g] + q) == Reversed(q) + [g]
  {
    assert ([g] + q)[1..] == q;
  }

  lemma {:induction false} ReversedAppend(p: seq<Group>, q: seq<Group>)
    ensures Reversed(p + q) == Reversed(q) + Reversed(p)
    decreases |p|
  {
    if p == [] {
      assert p + q == q;
    } else {
      assert (p + q)[1..] == p[1..] + q;
      ReversedAppend(p[1..], q);
    }
  }

  /** Victims come from the back of the queue, the last first, and the group in hand itself only when none is left. */
  ghost predicate TakenFromBack(running: seq<Group>, g: Group, room: Room, taken: seq<Group>) {
    if room.selfPreempted then room.state.running == [] && Reversed(taken) == [g] + running
    else room.state.running + Reversed(taken) == running
  }

  lemma {:induction false} MakeRoomFate(c: Config, own: Owner, before: Engine, s0: State, s: State, plan: Plan,
                                        kept: seq<Group>, g: Group, swapOut: map<nat, nat>,
                                        copies: map<nat, seq<nat>>, preempted: seq<Group>, f: Fate)
    returns (taken: seq<Group>)
    requires PassOk(own, before, s, plan, kept, [g], swapOut, copies)
    requires FateOk(own, s0, s, f, {g.id} + Ids(s.running))
    ensures MakeRoom(c, s, g, swapOut, preempted).Done?
    ensures var room := MakeRoom(c, s, g, swapOut, preempted).value;
            && room.preempted == preempted + taken && TakenFromBack(s.running, g, room, taken)
            && FateOk(own, s0, room.state, Settle(s0.engine.tables, f, taken),
                      Ids(room.state.running) + if room.selfPreempted then {} else {g.id})
    decreases |s.running|
  {
    hide PassOk, Preempt, CanAppend, FateOk, SettleOne, Settle, Ids, TakenFromBack;
    var f' := SettleOne(s0.engine.tables, f, if s.running == [] then g else s.running[|s.running| - 1]);
    if CanAppend(c, s, g) {
      taken := [];
      assert {g.id} + Ids(s.running) == Ids(s.running) + {g.id};
      NoneTaken(s0.engine.tables, f, s.running, g, Room(s, swapOut, preempted, false));
    } else if s.running != [] {
      var n := |s.running| - 1;
      var v, s1 := s.running[n], s.(running := s.running[..n]);
      var plan1 := VictimFate(own, before, s0, s, plan, kept, g, swapOut, copies, f);
      var (s2, swapOut') := Preempt(s1, v, swapOut).value;
      var more := MakeRoomFate(c, own, before, s0, s2, plan1, kept, g, swapOut', copies, preempted + [v], f');
      taken := [v] + more;
      SettleSingle(s0.engine.tables, f, v);
      SettleAppend(s0.engine.tables, f, [v], more);
      MoreTaken(s.running, g, MakeRoom(c, s, g, swapOut, preempted).value, more);
      assert preempted + [v] + more == preempted + taken;
    } else {
      SelfFate(own, before, s0, s, plan, kept, g, swapOut, copies, f);
      taken := [g];
      SettleSingle(s0.engine.tables, f, g);
      OnlySelf(g, MakeRoom(c, s, g, swapOut, preempted).value);
    }
  }

  lemma NoneTaken(tables: Tables, f: Fate, running: seq<Group>, g: Group, room: Room)
    requires room.state.running == running && !room.selfPreempted
    ensures TakenFromBack(running, g, room, []) && Settle(tables, f, []) == f
  {
    assert running + [] == running;
  }

  lemma MoreTaken(running: seq<Group>, g: Group, room: Room, more: seq<Group>)
    requires running != [] && TakenFromBack(running[..|running| - 1], g, room, more)
    ensures TakenFromBack(running, g, room, [running[|running| - 1]] + more)
  {
    var n := |running| - 1;
    assert running == running[..n] + [running[n]];
    ReversedPush(more, running[n]);
  }

  lemma OnlySelf(g: Group, room: Room)
    requires room.selfPreempted && room.state.running == []
    ensures TakenFromBack([], g, room, [g])
  {
    assert Reversed([g]) == [g] by { assert [g][1..] == []; }
  }

  /** With nothing left to preempt the group in hand goes itself. */
  lemma SelfFate(own: Owner, before: Engine, s0: State, s: State, plan: Plan, kept: seq<Group>, g: Group,
                 swapOut: map<nat, nat>, copies: map<nat, seq<nat>>, f: Fate)
    requires PassOk(own, before, s, plan, kept, [g], swapOut, copies) && s.running == []
    requires FateOk(own, s0, s, f, {g.id} + Ids(s.running))
    ensures Preempt(s, g, swapOut).Done?
    ensures var s' := Preempt(s, g, swapOut).value.0;
            && s'.running == [] && FateOk(own, s0, s', SettleOne(s0.engine.tables, f, g), Ids(s'.running) + {})
  {
    hide PassOk, Preempt, FateOk, SettleOne, Ids;
    assert [] + [g] == [g];
    FateAlone(own, s0, s, f, g);
    PreemptFate(own, before, s0, s, plan, kept, [], g, swapOut, copies, f);
    PreemptOutcome(own, before, s, plan, kept, [], g, swapOut, copies);
    assert Ids([]) + Ids(s.running) == Ids(s.running) + {} by { NoIds(); }
  }

  /** The victim at the back of the queue. */
  lemma VictimFate(own: Owner, before: Engine, s0: State, s: State, plan: Plan, kept: seq<Group>, g: Group,
                   swapOut: map<nat, nat>, copies: map<nat, seq<nat>>, f: Fate) returns (plan': Plan)
    requires PassOk(own, before, s, plan, kept, [g], swapOut, copies) && s.running != []
    requires FateOk(own, s0, s, f, {g.id} + Ids(s.running))
    ensures var n := |s.running| - 1;
            var v, s1 := s.running[n], s.(running := s.running[..n]);
            && Preempt(s1, v, swapOut).Done?
            && var (s2, swapOut') := Preempt(s1, v, swapOut).value;
            && s2.running == s1.running && PassOk(own, before, s2, plan', kept, [g], swapOut', copies)
            && FateOk(own, s0, s2, SettleOne(s0.engine.tables, f, v), {g.id} + Ids(s2.running))
  {
    hide PassOk, Preempt, FateOk, SettleOne, Ids;
    var n := |s.running| - 1;
    var v, s1 := s.running[n], s.(running := s.running[..n]);
    TakeLast(own, before, s, plan, kept, g, swapOut, copies);
    assert [g] + [v] == [g, v];
    FateTaken(own, s0, s, f, g);
    PreemptFate(own, before, s0, s1, plan, kept, [g], v, swapOut, copies, f);
    plan' := PreemptSafe(own, before, s1, plan, kept, [g], v, swapOut, copies);
    assert Preempt(s1, v, swapOut).value.0.running == s1.running by {
      PreemptOutcome(own, before, s1, plan, kept, [g], v, swapOut, copies);
    }
    OneId(g);
  }

  lemma OneId(g: Group)
    ensures Ids([g]) == {g.id}
  {
    assert forall h :: h in [g] <==> h == g;
  }

  lemma NoIds()
    ensures Ids([]) == {}
  {
  }

  lemma FateTaken(own: Owner, s0: State, s: State, f: Fate, g: Group)
    requires s.running != [] && FateOk(own, s0, s, f, {g.id} + Ids(s.running))
    ensures var n := |s.running| - 1;
            FateOk(own, s0, s.(running := s.running[..n]), f, Ids([g] + [s.running[n]]) + Ids(s.running[..n]))
  {
    hide SameFor, Statuses, Settled, Ids;
    var n := |s.running| - 1;
    assert s.running == s.running[..n] + [s.running[n]];
    SplitQueue(s.running[..n], [s.running[n]]);
    SplitQueue([g], [s.running[n]]);
    OneId(g);
    OneId(s.running[n]);
    assert {g.id} + Ids(s.running) == Ids([g] + [s.running[n]]) + Ids(s.running[..n]);
  }

  lemma FateAlone(own: Owner, s0: State, s: State, f: Fate, g: Group)
    requires FateOk(own, s0, s, f, {g.id} + Ids(s.running))
    ensures FateOk(own, s0, s, f, Ids([] + [g]) + Ids(s.running))
  {
    assert [] + [g] == [g];
    OneId(g);
  }

  /**
   The whole pass: the groups that keep running are a prefix of the queue, the rest is preempted from the back, and the
   fates of these say where they are.
   */
  lemma {:induction false} ProcessFate(c: Config, own: Owner, before: Engine, s0: State, s: State, plan: Plan,
                                       kept: seq<Group>, ops: Ops, preempted: seq<Group>, f: Fate)
    returns (taken: seq<Group>)
    requires PassOk(own, before, s, plan, kept, [], ops.swapOut, ops.copies)
    requires Process(c, s, kept, ops, preempted).Done? && FateOk(own, s0, s, f, Ids(s.running))
    ensures var (s', ops', preempted') := Process(c, s, kept, ops, preempted).value;
            && preempted' == preempted + taken && kept + s.running == s'.running + Reversed(taken)
            && FateOk(own, s0, s', Settle(s0.engine.tables, f, taken), {})
    decreases |s.running|
  {
    hide PassOk, MakeRoom, AppendGroup, FullSeqs, FateOk, SettleOne, Ids;
    if s.running == [] {
      taken := [];
      FateEnds(own, s0, s, f, kept);
    } else {
      var g := s.running[0];
      var s1 := s.(running := s.running[1..]);
      assert s.running == [g] + s.running[1..];
      TakeFirst(own, before, s, plan, kept, ops.swapOut, ops.copies);
      FateFirst(own, s0, s, f);
      var plan1 := MakeRoomSafe(c, own, before, s1, plan, kept, g, ops.swapOut, ops.copies, preempted);
      var first := MakeRoomFate(c, own, before, s0, s1, plan, kept, g, ops.swapOut, ops.copies, preempted, f);
      var room := MakeRoom(c, s1, g, ops.swapOut, preempted).value;
      var ops1 := ops.(swapOut := room.swapOut);
      var f1 := Settle(s0.engine.tables, f, first);
      var more;
      if room.selfPreempted {
        assert Ids(room.state.running) + {} == Ids(room.state.running);
        more := ProcessFate(c, own, before, s0, room.state, plan1, kept, ops1, room.preempted, f1);
      } else {
        var full := FullSeqs(c, room.state.seqs);
        var plan2 := KeepGroup(c, own, before, room.state, plan1, kept, g, room.swapOut, ops.copies, full);
        var (e, copies) := AppendGroup(room.state.engine, g.seqs, full, ops.copies).value;
        FateKept(own, before, s0, room.state, plan1, kept, g, room.swapOut, ops.copies, full, f1);
        more := ProcessFate(c, own, before, s0, room.state.(engine := e), plan2, kept + [g], ops1.(copies := copies),
                            room.preempted, f1);
      }
      taken := first + more;
      SettleAppend(s0.engine.tables, f, first, more);
      ReversedAppend(first, more);
      assert preempted + first + more == preempted + taken;
      QueueLaw(s, kept, g, room, first, more, Process(c, s, kept, ops, preempted).value.0);
    }
  }

  lemma QueueLaw(s: State, kept: seq<Group>, g: Group, room: Room, first: seq<Group>, more: seq<Group>, s': State)
    requires s.running != [] && s.running[0] == g && TakenFromBack(s.running[1..], g, room, first)
    requires (if room.selfPreempted then kept else kept + [g]) + room.state.running == s'.running + Reversed(more)
    ensures kept + s.running == s'.running + (Reversed(more) + Reversed(first))
  {
    assert s.running == [g] + s.running[1..];
    calc {
      s'.running + (Reversed(more) + Reversed(first));
      s'.running + Reversed(more) + Reversed(first);
      (if room.selfPreempted then kept else kept + [g]) + room.state.running + Reversed(first);
      kept + s.running;
    }
  }

  lemma FateEnds(own: Owner, s0: State, s: State, f: Fate, kept: seq<Group>)
    requires FateOk(own, s0, s, f, Ids(s.running)) && s.running == []
    ensures FateOk(own, s0, s.(running := kept), f, {})
  {
  }

  lemma FateFirst(own: Owner, s0: State, s: State, f: Fate)
    requires s.running != [] && FateOk(own, s0, s, f, Ids(s.running))
    ensures FateOk(own, s0, s.(running := s.running[1..]), f, {s.running[0].id} + Ids(s.running[1..]))
  {
    hide SameFor, Statuses, Settled, Ids;
    assert s.running == [s.running[0]] + s.running[1..];
    SplitQueue([s.running[0]], s.running[1..]);
    OneId(s.running[0]);
  }

  /** A group that gets its slots keeps running; nothing else changes. */
  lemma FateKept(own: Owner, before: Engine, s0: State, s: State, plan: Plan, kept: seq<Group>, g: Group,
                 swapOut: map<nat, nat>, copies: map<nat, seq<nat>>, full: set<SeqId>, f: Fate)
    requires PassOk(own, before, s, plan, kept, [g], swapOut, copies)
    requires AppendGroup(s.engine, g.seqs, full, copies).Done?
    requires FateOk(own, s0, s, f, Ids(s.running) + {g.id})
    ensures FateOk(own, s0, s.(engine := AppendGroup(s.engine, g.seqs, full, copies).value.0), f, Ids(s.running))
  {
    hide PassOk, SameFor, Statuses, Settled, AppendGroup, Consistent, NoDup, Closed, GroupOk;
    var e := AppendGroup(s.engine, g.seqs, full, copies).value.0;
    assert [] + [g] == [g];
    ClosedInHand(own, before, s, plan, kept, [], g, swapOut, copies);
    AppendKeepsCpu(s.engine, g.seqs, full, copies);
    AppendOthers(own, s.engine, g, full, copies, Ids(s.running));
    SameForTrans(own, s0.engine.tables, s.engine.tables, e.tables, Ids(s.running) + {g.id}, Ids(s.running));
    assert (Ids(s.running) + {g.id}) * Ids(s.running) == Ids(s.running);
  }

  // ----- The step

  /** The swap-in loop takes groups from the front, as long as its guard allows. */
  lemma {:induction false} SwapInPrefix(c: Config, s: State, ops: Ops) returns (k: nat)
    requires SwapInLoop(c, s, ops).Done?
    ensures k <= |s.swappedOut|
    ensures var s' := SwapInLoop(c, s, ops).value.0;
            && s'.running == s.running + s.swappedOut[..k] && s'.swappedOut == s.swappedOut[k..]
            && s'.waiting == s.waiting && s'.seqs == s.seqs
            && (k < |s.swappedOut| ==> !CanSwapIn(s'.engine, s.swappedOut[k].seqs))
    decreases |s.swappedOut|
  {
    hide SwapIn, CanSwapIn, AppendGroup, FullSeqs;
    if s.swappedOut == [] || !CanSwapIn(s.engine, s.swappedOut[0].seqs) {
      k := 0;
      assert s.running + [] == s.running;
    } else {
      var g := s.swappedOut[0];
      var (e, swap) := SwapIn(s.engine, g.seqs).value;
      var (e', copies) := AppendGroup(e, g.seqs, FullSeqs(c, s.seqs), ops.copies).value;
      var s1 := s.(swappedOut := s.swappedOut[1..], running := s.running + [g], engine := e');
      var k1 := SwapInPrefix(c, s1, ops.(swapIn := ops.swapIn + swap, copies := copies));
      k := k1 + 1;
      assert s.swappedOut[..k] == [g] + s.swappedOut[1..][..k1];
    }
  }

  ghost function NoFates(s: State): Fate {
    Fate([], [], [], |s.engine.pools.cpuFree|)
  }

  /** The fates of the last groups of the queue, which are preempted from the back. */
  ghost function FatesOf(s: State, last: seq<Group>): Fate {
    Settle(s.engine.tables, NoFates(s), Reversed(last))
  }

  /**
   What a step without admission does to the queues and statuses: the first `n` groups of the sorted running queue keep
   running; if none is preempted the first `k` of the sorted swapped-out queue join them.
   */
  ghost predicate Requeued(own: Owner, s: State, s': State, n: nat, k: nat) {
    var q := LatestFirst(s.running);
    n <= |q| &&
    var f := FatesOf(s, q[n..]);
    var sorted := LatestFirst(s.swappedOut + f.swapped);
    && k <= |sorted| && (n < |q| ==> k == 0)
    && s'.running == q[..n] + sorted[..k] && s'.swappedOut == sorted[k..] && s'.waiting == f.requeued + s.waiting
    && Statuses(own, s.seqs, s'.seqs, f)
    && (n == |q| && k < |sorted| ==> |Entries(s'.engine.tables, sorted[k].seqs)| > |s'.engine.pools.gpuFree|)
  }

  lemma DecodeFates(c: Config, own: Owner, s: State) returns (n: nat, k: nat)
    requires SchedulerOk(own, s) && Decode(c, s).Done?
    ensures Requeued(own, s, Decode(c, s).value.0, n, k)
  {
    hide SchedulerOk, PassOk, Process, SwapInLoop, LatestFirst, Statuses, Settle, CanSwapIn, Entries, NoDup;
    StepStarts(own, s);
    var q := LatestFirst(s.running);
    var s0 := s.(running := q);
    FateStarts(own, s, q);
    var taken := ProcessFate(c, own, s.engine, s, s0, NoOps, [], NoMaps, [], NoFates(s));
    var (s1, ops, preempted) := Process(c, s0, [], NoMaps, []).value;
    n := |s1.running|;
    assert [] + q == q && [] + taken == taken;
    assert q[..n] == s1.running && q[n..] == Reversed(taken);
    ReversedTwice(taken);
    var s2 := s1.(swappedOut := LatestFirst(s1.swappedOut));
    k := 0;
    var plan := DecodeSafe(c, own, s);
    if preempted == [] {
      k := SwapInPrefix(c, s2, ops);
      var s' := SwapInLoop(c, s2, ops).value.0;
      if k < |s2.swappedOut| {
        var g := s2.swappedOut[k];
        assert g == s'.swappedOut[0];
        QueuedNoDup(own, s', g);
        SwapGuards(s'.engine, g.seqs);
      }
    } else {
      assert |Reversed(taken)| == |taken| by { ReversedLength(taken); }
    }
  }

  lemma FateStarts(own: Owner, s: State, q: seq<Group>)
    ensures FateOk(own, s, s.(running := q), NoFates(s), Ids(q))
  {
    NoIds();
    assert [] + s.waiting == s.waiting && s.swappedOut + [] == s.swappedOut;
    assert forall id :: !InQueue([], id);
  }

  lemma {:induction false} ReversedTwice(q: seq<Group>)
    ensures Reversed(Reversed(q)) == q
    decreases |q|
  {
    if q != [] {
      ReversedAppend(Reversed(q[1..]), [q[0]]);
      assert Reversed([q[0]]) == [q[0]] by { assert [q[0]][1..] == []; }
      ReversedTwice(q[1..]);
    }
  }

  lemma QueuedNoDup(own: Owner, s: State, g: Group)
    requires SchedulerOk(own, s) && g in s.swappedOut
    ensures NoDup(g.seqs)
  {
    hide TablesOk;
    assert GroupOk(own, g);
  }

  // ----- Every preempted group has exactly one fate

  lemma {:induction false} SettleCounts(tables: Tables, f: Fate, preempted: seq<Group>)
    ensures var f' := Settle(tables, f, preempted);
            && multiset(f'.requeued) + multiset(f'.swapped) + multiset(f'.aborted)
               == multiset(f.requeued) + multiset(f.swapped) + multiset(f.aborted) + multiset(preempted)
            && (forall g :: g in f'.requeued ==> g in f.requeued || |g.seqs| == 1)
            && (forall g :: g in f'.swapped + f'.aborted ==> g in f.swapped + f.aborted || |g.seqs| != 1)
    decreases |preempted|
  {
    hide Entries, GroupBlockIds;
    if preempted != [] {
      var n := |preempted| - 1;
      assert preempted == preempted[..n] + [preempted[n]];
      SettleCounts(tables, f, preempted[..n]);
      OneCounts(tables, Settle(tables, f, preempted[..n]), preempted[n]);
    }
  }

  lemma OneCounts(tables: Tables, f: Fate, g: Group)
    ensures var f' := SettleOne(tables, f, g);
            multiset(f'.requeued) + multiset(f'.swapped) + multiset(f'.aborted)
            == multiset(f.requeued) + multiset(f.swapped) + multiset(f.aborted) + multiset{g}
  {
    hide Entries, GroupBlockIds;
    assert multiset([g] + f.requeued) == multiset{g} + multiset(f.requeued);
    assert multiset(f.swapped + [g]) == multiset(f.swapped) + multiset{g};
    assert multiset(f.aborted + [g]) == multiset(f.aborted) + multiset{g};
  }

  /** No group has two fates. */
  ghost predicate OneFate(f: Fate) {
    Ids(f.requeued) !! Ids(f.swapped) !! Ids(f.aborted)
  }

  lemma {:induction false} SettleOnce(tables: Tables, f: Fate, preempted: seq<Group>)
    requires OneFate(f) && Settled(f) !! Ids(preempted)
    requires forall i, j :: 0 <= i < j < |preempted| ==> preempted[i].id != preempted[j].id
    ensures var f' := Settle(tables, f, preempted); OneFate(f') && Settled(f') == Settled(f) + Ids(preempted)
    decreases |preempted|
  {
    hide SettleOne, Ids, OneFate;
    if preempted == [] {
      NoIds();
    } else {
      var n := |preempted| - 1;
      var g := preempted[n];
      assert preempted == preempted[..n] + [g];
      SplitQueue(preempted[..n], [g]);
      OneId(g);
      SettleOnce(tables, f, preempted[..n]);
      NotBefore(preempted);
      FateOnce(tables, Settle(tables, f, preempted[..n]), g);
    }
  }

  lemma NotBefore(q: seq<Group>)
    requires q != [] && (forall i, j :: 0 <= i < j < |q| ==> q[i].id != q[j].id)
    ensures q[|q| - 1].id !in Ids(q[..|q| - 1])
  {
  }

  lemma FateOnce(tables: Tables, f: Fate, g: Group)
    requires OneFate(f) && g.id !in Settled(f)
    ensures OneFate(SettleOne(tables, f, g)) && Settled(SettleOne(tables, f, g)) == Settled(f) + {g.id}
  {
    hide Entries, GroupBlockIds, Ids;
    SettledOne(tables, f, g);
    SplitQueue([g], f.requeued);
    SplitQueue(f.swapped, [g]);
    SplitQueue(f.aborted, [g]);
    OneId(g);
  }

  /** Where the preempted groups are after the step, their tables and their statuses. */
  ghost predicate FatesIn(s: State, s': State, f: Fate) {
    && (forall g, i :: g in f.requeued && i in g.seqs ==>
          i !in s'.engine.tables && i in s'.seqs && s'.seqs[i].status == Waiting)
    && (forall g, i :: g in f.swapped && i in g.seqs ==>
          && i in s.engine.tables && i in s'.engine.tables && |s.engine.tables[i]| <= |s'.engine.tables[i]|
          && (forall b :: b in s'.engine.tables[i] ==> b.dev == Cpu)
          && i in s'.seqs && s'.seqs[i].status == Status.Swapped)
    && (forall g, i :: g in f.aborted && i in g.seqs ==>
          i !in s'.engine.tables && i in s'.seqs && s'.seqs[i].status == FinishedAborted)
  }

  lemma LastGroups(own: Owner, q: seq<Group>, n: nat)
    requires QueueOk(own, q) && n <= |q|
    ensures var last := Reversed(q[n..]);
            && (forall i, j :: 0 <= i < j < |last| ==> last[i].id != last[j].id)
            && (forall g :: g in last ==> GroupOk(own, g) && g in q && g.id !in Ids(q[..n]))
  {
    hide GroupOk;
    var last := Reversed(q[n..]);
    ReversedLength(q[n..]);
    forall i | 0 <= i < |last| ensures last[i] == q[|q| - 1 - i] {
      ReversedAt(q[n..], i);
    }
  }

  lemma SwappedTables(own: Owner, s: State, g: Group)
    requires SchedulerOk(own, s) && g in s.swappedOut
    ensures forall i :: i in g.seqs ==> i in s.engine.tables && forall b :: b in s.engine.tables[i] ==> b.dev == Cpu
  {
    hide Consistent, NoSharing;
    assert GroupOk(own, g) && g.id in Ids(s.swappedOut);
  }

  lemma RunningTables(own: Owner, s: State, g: Group)
    requires SchedulerOk(own, s) && g in s.running
    ensures forall i :: i in g.seqs ==> i in s.engine.tables && i in s.seqs
    ensures g.id !in Ids(s.swappedOut)
  {
    hide Consistent, NoSharing;
    assert GroupOk(own, g) && g.id in Ids(s.running);
  }

  lemma NoTables(own: Owner, s: State, g: Group)
    requires SchedulerOk(own, s) && GroupOk(own, g) && g.id !in Ids(s.running) && g.id !in Ids(s.swappedOut)
    ensures Tableless(s.engine.tables, g.seqs)
  {
    hide Consistent, NoSharing;
  }

  lemma NotRunning(own: Owner, s: State, g: Group)
    requires SchedulerOk(own, s) && g in s.waiting
    ensures g.id !in Ids(s.running) && g.id !in Ids(s.swappedOut)
  {
    hide Consistent, NoSharing;
    assert g.id in Ids(s.waiting);
  }

  lemma StatusAt(own: Owner, seqs: map<SeqId, Sequence>, seqs': map<SeqId, Sequence>, f: Fate, g: Group)
    requires Statuses(own, seqs, seqs', f) && OneFate(f) && GroupOk(own, g)
    ensures forall i :: i in g.seqs && i in seqs ==>
              && i in seqs'
              && (g in f.requeued ==> seqs'[i].status == Waiting)
              && (g in f.swapped ==> seqs'[i].status == Status.Swapped)
              && (g in f.aborted ==> seqs'[i].status == FinishedAborted)
  {
    InQueueIds(f.requeued, g.id);
    InQueueIds(f.swapped, g.id);
    InQueueIds(f.aborted, g.id);
  }

  /** A preempted group ran, was not among those that keep running, and has one fate. */
  lemma FateMember(own: Owner, s: State, n: nat, g: Group)
    requires SchedulerOk(own, s) && n <= |LatestFirst(s.running)|
    requires var f := FatesOf(s, LatestFirst(s.running)[n..]); g in f.requeued || g in f.swapped || g in f.aborted
    ensures var q := LatestFirst(s.running);
            && OneFate(FatesOf(s, q[n..])) && n < |q| && g.id !in Ids(q[..n])
    ensures GroupOk(own, g) && g in s.running
  {
    hide TablesOk, LatestFirst, Settle, Ids, GroupOk, QueueOk, OneFate;
    var q := LatestFirst(s.running);
    var f, last := FatesOf(s, q[n..]), Reversed(q[n..]);
    LatestFirstOk(own, s.running);
    LatestFirstDescending(s.running);
    LastGroups(own, q, n);
    NothingSettled(s);
    SettleOnce(s.engine.tables, NoFates(s), last);
    SettleCounts(s.engine.tables, NoFates(s), last);
    assert multiset(f.requeued) + multiset(f.swapped) + multiset(f.aborted) == multiset(last);
    assert g in multiset(last);
    ReversedLength(q[n..]);
  }

  lemma NothingSettled(s: State)
    ensures OneFate(NoFates(s)) && Settled(NoFates(s)) == {}
  {
    NoIds();
  }

  lemma RequeuedPlaced(own: Owner, s: State, s': State, n: nat, k: nat, g: Group)
    requires SchedulerOk(own, s) && SchedulerOk(own, s') && Requeued(own, s, s', n, k)
    requires g in FatesOf(s, LatestFirst(s.running)[n..]).requeued
    ensures Tableless(s'.engine.tables, g.seqs)
    ensures forall i :: i in g.seqs ==> i in s'.seqs && s'.seqs[i].status == Waiting
  {
    hide SchedulerOk, LatestFirst, Statuses, FatesOf, Entries, Ids, GroupOk, OneFate;
    FateMember(own, s, n, g);
    assert g in s'.waiting;
    NotRunning(own, s', g);
    NoTables(own, s', g);
    RunningTables(own, s, g);
    StatusAt(own, s.seqs, s'.seqs, FatesOf(s, LatestFirst(s.running)[n..]), g);
  }

  lemma SwappedPlaced(own: Owner, s: State, s': State, plan: Plan, n: nat, k: nat, g: Group)
    requires SchedulerOk(own, s) && SchedulerOk(own, s') && Requeued(own, s, s', n, k)
    requires Keeps(s.engine.tables, s'.engine.tables, plan)
    requires g in FatesOf(s, LatestFirst(s.running)[n..]).swapped
    ensures forall i :: i in g.seqs ==>
              && i in s.engine.tables && i in s'.engine.tables && |s.engine.tables[i]| <= |s'.engine.tables[i]|
              && (forall b :: b in s'.engine.tables[i] ==> b.dev == Cpu)
              && i in s'.seqs && s'.seqs[i].status == Status.Swapped
  {
    hide SchedulerOk, LatestFirst, Statuses, FatesOf, Entries, Ids, GroupOk, OneFate;
    var f := FatesOf(s, LatestFirst(s.running)[n..]);
    FateMember(own, s, n, g);
    LatestFirstDescending(s.swappedOut + f.swapped);
    assert g in s.swappedOut + f.swapped;
    assert g in s'.swappedOut;
    SwappedTables(own, s', g);
    RunningTables(own, s, g);
    StatusAt(own, s.seqs, s'.seqs, f, g);
  }

  lemma AbortedPlaced(own: Owner, s: State, s': State, n: nat, k: nat, g: Group)
    requires SchedulerOk(own, s) && SchedulerOk(own, s') && Requeued(own, s, s', n, k)
    requires g in FatesOf(s, LatestFirst(s.running)[n..]).aborted
    ensures Tableless(s'.engine.tables, g.seqs)
    ensures forall i :: i in g.seqs ==> i in s'.seqs && s'.seqs[i].status == FinishedAborted
  {
    hide SchedulerOk, LatestFirst, Statuses, FatesOf, Entries, Ids, GroupOk;
    var q := LatestFirst(s.running);
    var f := FatesOf(s, q[n..]);
    FateMember(own, s, n, g);
    LatestFirstDescending(s.swappedOut + f.swapped);
    SameQueueIds(s.swappedOut + f.swapped, LatestFirst(s.swappedOut + f.swapped));
    SplitQueue(s.swappedOut, f.swapped);
    RunningTables(own, s, g);
    assert g.id in Ids(f.aborted) by { InQueueIds(f.aborted, g.id); InFate(f.aborted, g); }
    assert s'.running == q[..n] && s'.swappedOut == LatestFirst(s.swappedOut + f.swapped) by {
      assert q[..n] + LatestFirst(s.swappedOut + f.swapped)[..0] == q[..n];
    }
    NoTables(own, s', g);
    StatusAt(own, s.seqs, s'.seqs, f, g);
  }

  lemma InFate(q: seq<Group>, g: Group)
    requires g in q
    ensures InQueue(q, g.id)
  {
  }

  lemma SameQueueIds(p: seq<Group>, q: seq<Group>)
    requires forall g :: g in p <==> g in q
    ensures Ids(p) == Ids(q)
  {
  }

  lemma FatesPlaced(c: Config, own: Owner, s: State, n: nat, k: nat)
    requires SchedulerOk(own, s) && Decode(c, s).Done? && Requeued(own, s, Decode(c, s).value.0, n, k)
    ensures FatesIn(s, Decode(c, s).value.0, FatesOf(s, LatestFirst(s.running)[n..]))
  {
    hide SchedulerOk, Decode, LatestFirst, FatesOf, CopiesApart, IsInverse, IsCopyInverse, Requeued;
    var plan := DecodeSafe(c, own, s);
    var s' := Decode(c, s).value.0;
    assert n <= |LatestFirst(s.running)| by { InQueueRange(own, s, s', n, k); }
    var f := FatesOf(s, LatestFirst(s.running)[n..]);
    forall g | g in f.requeued
      ensures Tableless(s'.engine.tables, g.seqs)
      ensures forall i :: i in g.seqs ==> i in s'.seqs && s'.seqs[i].status == Waiting
    {
      RequeuedPlaced(own, s, s', n, k, g);
    }
    forall g, i | g in f.swapped && i in g.seqs
      ensures i in s.engine.tables && i in s'.engine.tables && |s.engine.tables[i]| <= |s'.engine.tables[i]|
      ensures forall b :: b in s'.engine.tables[i] ==> b.dev == Cpu
      ensures i in s'.seqs && s'.seqs[i].status == Status.Swapped
    {
      SwappedPlaced(own, s, s', plan, n, k, g);
    }
    forall g | g in f.aborted
      ensures Tableless(s'.engine.tables, g.seqs)
      ensures forall i :: i in g.seqs ==> i in s'.seqs && s'.seqs[i].status == FinishedAborted
    {
      AbortedPlaced(own, s, s', n, k, g);
    }
  }

  lemma InQueueRange(own: Owner, s: State, s': State, n: nat, k: nat)
    requires Requeued(own, s, s', n, k)
    ensures n <= |LatestFirst(s.running)|
  {
  }

  // ----- Statuses after admission

  /** The sequences of the groups in `batch` run; no other has changed. */
  ghost predicate Started(seqs: map<SeqId, Sequence>, seqs': map<SeqId, Sequence>, batch: seq<Group>) {
    && seqs'.Keys == seqs.Keys
    && (forall i :: i in seqs ==> seqs'[i].len == seqs[i].len)
    && (forall i :: i in seqs ==> seqs'[i].status == if InBatch(batch, i) then Running else seqs[i].status)
  }

  lemma StartedNone(seqs: map<SeqId, Sequence>)
    ensures Started(seqs, seqs, [])
  {
  }

  lemma StartedCons(seqs: map<SeqId, Sequence>, seqs': map<SeqId, Sequence>, g: Group, more: seq<Group>)
    requires Started(SetStatus(seqs, g, Running), seqs', more)
    ensures Started(seqs, seqs', [g] + more)
  {
    forall i ensures InBatch([g] + more, i) <==> i in g.seqs || InBatch(more, i) {
      BatchFront(g, more, i);
    }
  }

  lemma BatchFront(g: Group, more: seq<Group>, i: SeqId)
    ensures InBatch([g] + more, i) <==> i in g.seqs || InBatch(more, i)
  {
    assert ([g] + more)[0] == g;
    assert forall h :: h in [g] + more <==> h == g || h in more;
  }

  /** Admission sets the status of exactly the admitted sequences, to running. */
  lemma {:induction false} AdmitStarts(c: Config, own: Owner, s: State, scheduled: seq<Group>, ignored: seq<Group>)
    requires SchedulerOk(own, s) && PoolBounded(c, s.engine) && Admit(c, s, scheduled, ignored).Done?
    ensures var (s', scheduled', _) := Admit(c, s, scheduled, ignored).value;
            scheduled <= scheduled' && Started(s.seqs, s'.seqs, scheduled'[|scheduled|..])
    decreases |s.waiting|
  {
    hide SchedulerOk, Allocate, PoolBounded, SetStatus, CanAllocate, NumSeqs, Started;
    var (s', scheduled', _) := Admit(c, s, scheduled, ignored).value;
    if s.waiting == [] || c.maxNumSeqs == NumSeqs(s.running) + 1 || CanAllocate(c, s, s.waiting[0]).Later? {
      assert scheduled'[|scheduled|..] == [];
      StartedNone(s.seqs);
    } else {
      var g := s.waiting[0];
      if CanAllocate(c, s, g).Impossible? {
        SetStatusKeys(s.seqs, g, FinishedIgnored);
        SameLengths(c, s.seqs, SetStatus(s.seqs, g, FinishedIgnored), g.seqs);
        ImpossiblePanics(c, own, s);
      }
      var n := TotalLogicalBlocks(c, s.seqs, g.seqs);
      AdmitGroup(own, s, n);
      var e := Allocate(s.engine, g.seqs, n).value;
      var s1 := s.(waiting := s.waiting[1..], running := s.running + [g], engine := e,
                   seqs := SetStatus(s.seqs, g, Running));
      SamePoolBound(c, s.engine, e);
      AdmitStarts(c, own, s1, scheduled + [g], ignored);
      var more := scheduled'[|scheduled + [g]|..];
      assert scheduled'[|scheduled|] == (scheduled + [g])[|scheduled|] == g;
      assert scheduled'[|scheduled|..] == [g] + more;
      StartedCons(s.seqs, s'.seqs, g, more);
      assert scheduled <= scheduled + [g] <= scheduled';
    }
  }
}
