/**
 Safety of a schedule step from any valid state, groups with shared blocks included: the accounting is kept and
 the delayed, batched memory operations leave the logical contents of every surviving sequence as they were.
 */
module ScheduleSafety {
  import opened Outcomes
  import opened Engine
  import opened MemoryOps
  import opened StepInvariant
  import opened Scheduler
  import opened QueueOrder

  // ----- Queues

  ghost function Ids(q: seq<Group>): set<nat> {
    set g | g in q :: g.id
  }

  ghost predicate GroupOk(own: Owner, g: Group) {
    g.seqs != [] && GroupIs(own, g.seqs, g.id)
  }

  ghost predicate QueueOk(own: Owner, q: seq<Group>) {
    && (forall g :: g in q ==> GroupOk(own, g))
    && (forall i, j :: 0 <= i < j < |q| ==> q[i].id != q[j].id)
  }

  lemma QueueFirst(own: Owner, q: seq<Group>)
    requires QueueOk(own, q) && q != []
    ensures QueueOk(own, q[1..]) && GroupOk(own, q[0])
    ensures Ids(q[1..]) == Ids(q) - {q[0].id} && q[0].id in Ids(q)
  {
    var rest := q[1..];
    assert q == [q[0]] + rest;
    forall g | g in rest ensures g.id != q[0].id {
      var i :| 0 <= i < |rest| && rest[i] == g;
      assert q[i + 1] == g;
    }
  }

  lemma QueueLast(own: Owner, q: seq<Group>)
    requires QueueOk(own, q) && q != []
    ensures QueueOk(own, q[..|q| - 1]) && GroupOk(own, q[|q| - 1])
    ensures Ids(q[..|q| - 1]) == Ids(q) - {q[|q| - 1].id} && q[|q| - 1].id in Ids(q)
  {
    var rest := q[..|q| - 1];
    assert q == rest + [q[|q| - 1]];
  }

  lemma QueuePush(own: Owner, q: seq<Group>, g: Group)
    requires QueueOk(own, q) && GroupOk(own, g) && g.id !in Ids(q)
    ensures QueueOk(own, q + [g]) && Ids(q + [g]) == Ids(q) + {g.id}
    ensures QueueOk(own, [g] + q) && Ids([g] + q) == Ids(q) + {g.id}
  {
    assert forall i :: 0 <= i < |q| ==> q[i] in q;
  }

  lemma {:induction false} RemoveAbsent(q: seq<Group>, id: nat)
    requires id !in Ids(q)
    ensures RemoveGroup(q, id) == q
    decreases |q|
  {
    if q != [] {
      assert q[0] in q;
      assert q == [q[0]] + q[1..];
      RemoveAbsent(q[1..], id);
    }
  }

  // ----- Sorting

  lemma {:induction false} SamePlaces(own: Owner, q: seq<Group>, r: seq<Group>)
    requires multiset(q) == multiset(r) && QueueOk(own, q)
    ensures QueueOk(own, r) && Ids(r) == Ids(q)
  {
    assert forall g :: g in r <==> g in q by {
      forall g ensures g in r <==> g in q {
        assert g in r <==> g in multiset(r);
        assert g in q <==> g in multiset(q);
      }
    }
    forall i, j | 0 <= i < j < |r| ensures r[i].id != r[j].id {
      assert r[i] != r[j] by {
        NoDupCount(q, r[i]);
        if r[i] == r[j] {
          OccursTwice(r, i, j);
        }
      }
      assert r[i] in q && r[j] in q;
      var k :| 0 <= k < |q| && q[k] == r[i];
      var l :| 0 <= l < |q| && q[l] == r[j];
    }
  }

  lemma LatestFirstOk(own: Owner, q: seq<Group>)
    requires QueueOk(own, q)
    ensures QueueOk(own, LatestFirst(q)) && Ids(LatestFirst(q)) == Ids(q)
    ensures multiset(LatestFirst(q)) == multiset(q)
  {
    LatestFirstDescending(q);
    SamePlaces(own, q, LatestFirst(q));
  }

  // ----- Valid scheduler states

  ghost predicate Known(own: Owner, s: State) {
    forall i :: i in own ==> i in s.seqs
  }

  ghost predicate QueuesOk(own: Owner, s: State) {
    && QueueOk(own, s.waiting) && QueueOk(own, s.running) && QueueOk(own, s.swappedOut)
    && Ids(s.waiting) !! Ids(s.running) !! Ids(s.swappedOut)
    && (forall g :: g in s.waiting ==> |g.seqs| == 1)
  }

  /** Between steps: tables belong exactly to the running and swapped-out groups. */
  ghost predicate SchedulerOk(own: Owner, s: State) {
    && QueuesOk(own, s) && Known(own, s)
    && TablesOk(own, s.engine, Ids(s.running) + Ids(s.swappedOut), Ids(s.swappedOut))
  }

  /**
   Inside the pass over the running queue: `kept` have their slots, `hand` and `s.running` are still to be handled.
   */
  ghost predicate PassQueues(own: Owner, s: State, kept: seq<Group>, hand: seq<Group>) {
    && QueuesOk(own, s) && Known(own, s) && QueueOk(own, kept) && QueueOk(own, hand)
    && Ids(kept) !! Ids(hand) !! (Ids(s.waiting) + Ids(s.running) + Ids(s.swappedOut))
  }

  ghost predicate Slotted(tables: Tables, kept: seq<Group>) {
    forall g, s :: g in kept && s in g.seqs ==> OwnsLast(tables, s)
  }

  ghost predicate PassOk(own: Owner, before: Engine, s: State, plan: Plan, kept: seq<Group>, hand: seq<Group>,
                         swapOut: map<nat, nat>, copies: map<nat, seq<nat>>) {
    && PassQueues(own, s, kept, hand)
    && StepOk(own, before, s.engine, plan, Ids(kept) + Ids(hand) + Ids(s.running) + Ids(s.swappedOut),
              Ids(s.swappedOut), Ids(hand) + Ids(s.running))
    && plan.inn == map[] && IsInverse(swapOut, plan.out) && IsCopyInverse(copies, plan.copy)
    && Slotted(s.engine.tables, kept)
  }

  lemma SetStatusKeys(seqs: map<SeqId, Sequence>, g: Group, status: Status)
    ensures SetStatus(seqs, g, status).Keys == seqs.Keys
    ensures forall s :: s in seqs ==> SetStatus(seqs, g, status)[s].len == seqs[s].len
  {
  }

  lemma KeptElsewhere(own: Owner, kept: seq<Group>, v: Group, g: Group, t: SeqId)
    requires QueueOk(own, kept) && GroupOk(own, v) && v.id !in Ids(kept) && g in kept && t in g.seqs
    ensures t !in v.seqs
  {
  }

  /** The victim of a preemption is freed: by recomputation or because it cannot be swapped out. */
  lemma PreemptByFree(own: Owner, before: Engine, s: State, plan: Plan, kept: seq<Group>, rest: seq<Group>, v: Group,
                      swapOut: map<nat, nat>, copies: map<nat, seq<nat>>)
    requires PassOk(own, before, s, plan, kept, rest + [v], swapOut, copies)
    ensures FreeGroup(s.engine, v.seqs).Done?
    ensures var e := FreeGroup(s.engine, v.seqs).value;
            && StepOk(own, before, e, plan, Ids(kept) + Ids(rest) + Ids(s.running) + Ids(s.swappedOut),
                      Ids(s.swappedOut), Ids(rest) + Ids(s.running))
            && Slotted(e.tables, kept)
  {
    hide StepOk, FreeGroup, OwnsLast, IsInverse, IsCopyInverse, GroupOk;
    QueueLast(own, rest + [v]);
    assert (rest + [v])[..|rest|] == rest;
    var live := Ids(kept) + Ids(rest + [v]) + Ids(s.running) + Ids(s.swappedOut);
    var todo := Ids(rest + [v]) + Ids(s.running);
    FreeStep(own, before, s.engine, plan, live, Ids(s.swappedOut), todo, v.seqs, v.id) by {
      assert GroupOk(own, v);
    }
    assert live - {v.id} == Ids(kept) + Ids(rest) + Ids(s.running) + Ids(s.swappedOut);
    assert todo - {v.id} == Ids(rest) + Ids(s.running);
    forall g, t | g in kept && t in g.seqs ensures OwnsLast(FreeGroup(s.engine, v.seqs).value.tables, t) {
      KeptElsewhere(own, kept, v, g, t);
      GroupInTables(own, before, s.engine, plan, live, Ids(s.swappedOut), todo, v);
      FreeKeepsOthers(own, s.engine, v.seqs, v.id, t);
    }
  }

  lemma GroupInTables(own: Owner, before: Engine, e: Engine, plan: Plan, live: set<nat>, onCpu: set<nat>,
                      todo: set<nat>, v: Group)
    requires StepOk(own, before, e, plan, live, onCpu, todo) && GroupOk(own, v) && v.id in live
    ensures Consistent(e) && NoSharing(own, e.tables) && Placed(own, e.tables, onCpu) && GroupIs(own, v.seqs, v.id)
    ensures forall s :: s in v.seqs ==> s in e.tables
  {
  }

  lemma PreemptBySwap(own: Owner, before: Engine, s: State, plan: Plan, kept: seq<Group>, rest: seq<Group>, v: Group,
                      swapOut: map<nat, nat>, copies: map<nat, seq<nat>>) returns (plan': Plan)
    requires PassOk(own, before, s, plan, kept, rest + [v], swapOut, copies) && CanSwapOut(s.engine, v.seqs)
    ensures SwapOut(s.engine, v.seqs).Done?
    ensures var (e, swap) := SwapOut(s.engine, v.seqs).value;
            && StepOk(own, before, e, plan', Ids(kept) + Ids(rest) + Ids(s.running) + Ids(s.swappedOut + [v]),
                      Ids(s.swappedOut + [v]), Ids(rest) + Ids(s.running))
            && IsInverse(swapOut + swap, plan'.out) && Slotted(e.tables, kept)
    ensures plan'.inn == map[] && plan'.copy == plan.copy
  {
    hide StepOk, SwapOut, CanSwapOut, OwnsLast, IsInverse, IsCopyInverse, GroupOk;
    QueueLast(own, rest + [v]);
    assert (rest + [v])[..|rest|] == rest;
    QueuePush(own, s.swappedOut, v);
    var live := Ids(kept) + Ids(rest + [v]) + Ids(s.running) + Ids(s.swappedOut);
    var todo := Ids(rest + [v]) + Ids(s.running);
    assert GroupIs(own, v.seqs, v.id) by { assert GroupOk(own, v); }
    plan' := SwapOutStep(own, before, s.engine, plan, live, Ids(s.swappedOut), todo, v.seqs, v.id, swapOut);
    assert live == Ids(kept) + Ids(rest) + Ids(s.running) + Ids(s.swappedOut + [v]);
    assert todo - {v.id} == Ids(rest) + Ids(s.running);
    forall g, t | g in kept && t in g.seqs ensures OwnsLast(SwapOut(s.engine, v.seqs).value.0.tables, t) {
      KeptElsewhere(own, kept, v, g, t);
      GroupInTables(own, before, s.engine, plan, live, Ids(s.swappedOut), todo, v);
      SwapOutKeepsOthers(own, s.engine, v.seqs, v.id, Ids(s.swappedOut), t);
    }
  }

  /** Preempting a group that has no slot yet never panics and keeps the invariant of the pass. */
  lemma PreemptSafe(own: Owner, before: Engine, s: State, plan: Plan, kept: seq<Group>, rest: seq<Group>, v: Group,
                    swapOut: map<nat, nat>, copies: map<nat, seq<nat>>) returns (plan': Plan)
    requires PassOk(own, before, s, plan, kept, rest + [v], swapOut, copies)
    ensures Preempt(s, v, swapOut).Done?
    ensures PassOk(own, before, Preempt(s, v, swapOut).value.0, plan', kept, rest, Preempt(s, v, swapOut).value.1,
                   copies)
    ensures plan'.copy == plan.copy
  {
    hide PassOk, FreeGroup, SwapOut, CanSwapOut, RemoveGroup, SetStatus;
    if |v.seqs| == 1 {
      plan' := plan;
      PreemptByFree(own, before, s, plan, kept, rest, v, swapOut, copies);
      RecomputeQueues(own, before, s, plan, kept, rest, v, swapOut, copies, FreeGroup(s.engine, v.seqs).value);
    } else if CanSwapOut(s.engine, v.seqs) {
      plan' := PreemptBySwap(own, before, s, plan, kept, rest, v, swapOut, copies);
      SwapQueues(own, before, s, plan, kept, rest, v, swapOut, copies, plan');
    } else {
      plan' := plan;
      PreemptByFree(own, before, s, plan, kept, rest, v, swapOut, copies);
      AbortQueues(own, before, s, plan, kept, rest, v, swapOut, copies, FreeGroup(s.engine, v.seqs).value);
    }
  }

  lemma HandLast(own: Owner, s: State, kept: seq<Group>, rest: seq<Group>, v: Group)
    requires PassQueues(own, s, kept, rest + [v])
    ensures QueueOk(own, rest) && GroupOk(own, v) && Ids(rest + [v]) == Ids(rest) + {v.id} && v.id !in Ids(rest)
    ensures v.id !in Ids(kept) && v.id !in Ids(s.waiting) && v.id !in Ids(s.running) && v.id !in Ids(s.swappedOut)
    ensures PassQueues(own, s, kept, rest)
  {
    QueueLast(own, rest + [v]);
    assert (rest + [v])[..|rest|] == rest;
  }

  lemma RecomputeQueues(own: Owner, before: Engine, s: State, plan: Plan, kept: seq<Group>, rest: seq<Group>, v: Group,
                        swapOut: map<nat, nat>, copies: map<nat, seq<nat>>, e: Engine)
    requires PassOk(own, before, s, plan, kept, rest + [v], swapOut, copies) && |v.seqs| == 1
    requires StepOk(own, before, e, plan, Ids(kept) + Ids(rest) + Ids(s.running) + Ids(s.swappedOut),
                    Ids(s.swappedOut), Ids(rest) + Ids(s.running))
    requires Slotted(e.tables, kept)
    ensures PassOk(own, before, s.(waiting := [v] + s.waiting, engine := e, seqs := SetStatus(s.seqs, v, Waiting)),
                   plan, kept, rest, swapOut, copies)
  {
    hide StepOk, IsInverse, IsCopyInverse, GroupOk, SetStatus, Slotted, QueueOk;
    HandLast(own, s, kept, rest, v);
    QueuePush(own, s.waiting, v);
    SetStatusKeys(s.seqs, v, Waiting);
  }

  lemma SwapQueues(own: Owner, before: Engine, s: State, plan: Plan, kept: seq<Group>, rest: seq<Group>, v: Group,
                   swapOut: map<nat, nat>, copies: map<nat, seq<nat>>, plan': Plan)
    requires PassOk(own, before, s, plan, kept, rest + [v], swapOut, copies)
    requires SwapOut(s.engine, v.seqs).Done?
    requires var (e, swap) := SwapOut(s.engine, v.seqs).value;
             && StepOk(own, before, e, plan', Ids(kept) + Ids(rest) + Ids(s.running) + Ids(s.swappedOut + [v]),
                       Ids(s.swappedOut + [v]), Ids(rest) + Ids(s.running))
             && IsInverse(swapOut + swap, plan'.out) && Slotted(e.tables, kept)
    requires plan'.inn == map[] && plan'.copy == plan.copy
    ensures var (e, swap) := SwapOut(s.engine, v.seqs).value;
            PassOk(own, before,
                   s.(swappedOut := s.swappedOut + [v], engine := e, seqs := SetStatus(s.seqs, v, Status.Swapped)),
                   plan', kept, rest, swapOut + swap, copies)
  {
    hide StepOk, IsInverse, IsCopyInverse, GroupOk, SetStatus, Slotted, QueueOk, SwapOut;
    HandLast(own, s, kept, rest, v);
    QueuePush(own, s.swappedOut, v);
    SetStatusKeys(s.seqs, v, Status.Swapped);
  }

  lemma AbortQueues(own: Owner, before: Engine, s: State, plan: Plan, kept: seq<Group>, rest: seq<Group>, v: Group,
                    swapOut: map<nat, nat>, copies: map<nat, seq<nat>>, e: Engine)
    requires PassOk(own, before, s, plan, kept, rest + [v], swapOut, copies)
    requires StepOk(own, before, e, plan, Ids(kept) + Ids(rest) + Ids(s.running) + Ids(s.swappedOut),
                    Ids(s.swappedOut), Ids(rest) + Ids(s.running))
    requires Slotted(e.tables, kept)
    ensures PassOk(own, before,
                   s.(waiting := RemoveGroup(s.waiting, v.id), running := RemoveGroup(s.running, v.id),
                      swappedOut := RemoveGroup(s.swappedOut, v.id), engine := e,
                      seqs := SetStatus(s.seqs, v, FinishedAborted)),
                   plan, kept, rest, swapOut, copies)
  {
    hide StepOk, IsInverse, IsCopyInverse, GroupOk, SetStatus, Slotted, QueueOk, RemoveGroup;
    HandLast(own, s, kept, rest, v);
    RemoveAbsent(s.waiting, v.id);
    RemoveAbsent(s.running, v.id);
    RemoveAbsent(s.swappedOut, v.id);
    SetStatusKeys(s.seqs, v, FinishedAborted);
  }

  // ----- The pass over the running queue

  /** Making room never panics; if nothing was preempted, nothing changed. */
  lemma {:induction false} MakeRoomSafe(c: Config, own: Owner, before: Engine, s: State, plan: Plan, kept: seq<Group>,
                                        g: Group, swapOut: map<nat, nat>, copies: map<nat, seq<nat>>,
                                        preempted: seq<Group>)
    returns (plan': Plan)
    requires PassOk(own, before, s, plan, kept, [g], swapOut, copies)
    ensures MakeRoom(c, s, g, swapOut, preempted).Done?
    ensures var room := MakeRoom(c, s, g, swapOut, preempted).value;
            && PassOk(own, before, room.state, plan', kept, if room.selfPreempted then [] else [g], room.swapOut,
                      copies)
            && preempted <= room.preempted
            && (room.preempted == preempted ==> plan' == plan && room.state == s && !room.selfPreempted)
    ensures plan'.copy == plan.copy
    decreases |s.running|
  {
    hide PassOk, Preempt, CanAppend;
    if CanAppend(c, s, g) {
      plan' := plan;
    } else if s.running != [] {
      var v := s.running[|s.running| - 1];
      var s1 := s.(running := s.running[..|s.running| - 1]);
      TakeLast(own, before, s, plan, kept, g, swapOut, copies);
      assert [g] + [v] == [g, v];
      var plan1 := PreemptSafe(own, before, s1, plan, kept, [g], v, swapOut, copies);
      var (s2, swapOut') := Preempt(s1, v, swapOut).value;
      plan' := MakeRoomSafe(c, own, before, s2, plan1, kept, g, swapOut', copies, preempted + [v]);
    } else {
      assert [] + [g] == [g];
      plan' := PreemptSafe(own, before, s, plan, kept, [], g, swapOut, copies);
    }
  }

  /** Taking the last group of the running queue in hand. */
  lemma TakeLast(own: Owner, before: Engine, s: State, plan: Plan, kept: seq<Group>, g: Group,
                 swapOut: map<nat, nat>, copies: map<nat, seq<nat>>)
    requires PassOk(own, before, s, plan, kept, [g], swapOut, copies) && s.running != []
    ensures PassOk(own, before, s.(running := s.running[..|s.running| - 1]), plan, kept,
                   [g, s.running[|s.running| - 1]], swapOut, copies)
  {
    hide StepOk, IsInverse, IsCopyInverse, GroupOk, Slotted;
    var v := s.running[|s.running| - 1];
    QueueLast(own, s.running);
    QueuePush(own, [g], v);
    assert [g] + [v] == [g, v];
    var s1 := s.(running := s.running[..|s.running| - 1]);
    assert Ids(kept) + Ids([g]) + Ids(s.running) + Ids(s.swappedOut)
        == Ids(kept) + Ids([g, v]) + Ids(s1.running) + Ids(s1.swappedOut);
    assert Ids([g]) + Ids(s.running) == Ids([g, v]) + Ids(s1.running);
  }

  /** Taking the first group of the running queue in hand. */
  lemma TakeFirst(own: Owner, before: Engine, s: State, plan: Plan, kept: seq<Group>,
                  swapOut: map<nat, nat>, copies: map<nat, seq<nat>>)
    requires PassOk(own, before, s, plan, kept, [], swapOut, copies) && s.running != []
    ensures PassOk(own, before, s.(running := s.running[1..]), plan, kept, [s.running[0]], swapOut, copies)
  {
    hide StepOk, IsInverse, IsCopyInverse, GroupOk, Slotted;
    var g := s.running[0];
    QueueFirst(own, s.running);
    QueuePush(own, [], g);
    assert [] + [g] == [g];
    var s1 := s.(running := s.running[1..]);
    assert Ids(kept) + Ids([]) + Ids(s.running) + Ids(s.swappedOut)
        == Ids(kept) + Ids([g]) + Ids(s1.running) + Ids(s1.swappedOut);
    assert Ids([]) + Ids(s.running) == Ids([g]) + Ids(s1.running);
  }

  /** The group in hand gets its slots and joins the kept ones. */
  lemma KeepGroup(c: Config, own: Owner, before: Engine, s: State, plan: Plan, kept: seq<Group>, g: Group,
                  swapOut: map<nat, nat>, copies: map<nat, seq<nat>>, full: set<SeqId>) returns (plan': Plan)
    requires PassOk(own, before, s, plan, kept, [g], swapOut, copies)
    requires AppendGroup(s.engine, g.seqs, full, copies).Done?
    ensures var (e, copies') := AppendGroup(s.engine, g.seqs, full, copies).value;
            PassOk(own, before, s.(engine := e), plan', kept + [g], [], swapOut, copies')
    ensures plan'.out == plan.out
  {
    hide StepOk, IsInverse, IsCopyInverse, AppendGroup, OwnsLast;
    QueuePush(own, kept, g) by {
      assert [g][0] == g;
      assert g.id in Ids([g]);
    }
    var live := Ids(kept) + Ids([g]) + Ids(s.running) + Ids(s.swappedOut);
    var live' := Ids(kept + [g]) + Ids([]) + Ids(s.running) + Ids(s.swappedOut);
    assert Ids([g]) == {g.id} && live == live';
    var todo, todo' := Ids([g]) + Ids(s.running), Ids([]) + Ids(s.running);
    LessToDo(own, before, s.engine, plan, live, Ids(s.swappedOut), todo, todo');
    plan' := AppendGroupStep(own, before, s.engine, plan, live', Ids(s.swappedOut), todo', g.seqs, full, copies);
    var (e, copies') := AppendGroup(s.engine, g.seqs, full, copies).value;
    forall h, t | h in kept + [g] && t in h.seqs ensures OwnsLast(e.tables, t) {
      EngineOfStep(own, before, s.engine, plan, live, Ids(s.swappedOut), todo);
      AppendGroupOwns(s.engine, g.seqs, full, copies, t);
      if h in kept {
        KeptElsewhere(own, kept, g, h, t);
      }
    }
    assert PassQueues(own, s.(engine := e), kept + [g], []);
  }

  lemma LessToDo(own: Owner, before: Engine, e: Engine, plan: Plan, live: set<nat>, onCpu: set<nat>, todo: set<nat>,
                 todo': set<nat>)
    requires StepOk(own, before, e, plan, live, onCpu, todo) && todo' <= todo
    ensures StepOk(own, before, e, plan, live, onCpu, todo')
  {
  }

  lemma EngineOfStep(own: Owner, before: Engine, e: Engine, plan: Plan, live: set<nat>, onCpu: set<nat>, todo: set<nat>)
    requires StepOk(own, before, e, plan, live, onCpu, todo)
    ensures Consistent(e) && TablesOk(own, e, live, onCpu)
    ensures Keeps(before.tables, e.tables, plan) && CopiesApart(plan) && e.pools.refs.Keys == before.pools.refs.Keys
    ensures Within(plan, before.pools.refs.Keys)
  {
  }

  /** The whole pass: every kept group owns its last blocks, and nothing preempted means nothing swapped out. */
  lemma {:induction false} ProcessSafe(c: Config, own: Owner, before: Engine, s: State, plan: Plan, kept: seq<Group>,
                                       ops: Ops, preempted: seq<Group>) returns (plan': Plan)
    requires PassOk(own, before, s, plan, kept, [], ops.swapOut, ops.copies)
    requires preempted == [] ==> plan.out == map[]
    requires Process(c, s, kept, ops, preempted).Done?
    ensures var (s', ops', preempted') := Process(c, s, kept, ops, preempted).value;
            && PassOk(own, before, s'.(running := []), plan', s'.running, [], ops'.swapOut, ops'.copies)
            && (preempted' == [] ==> plan'.out == map[])
            && ops'.swapIn == ops.swapIn && kept <= s'.running
    decreases |s.running|
  {
    hide PassOk, MakeRoom, AppendGroup;
    if s.running == [] {
      plan' := plan;
      assert s.(running := kept).(running := []) == s;
    } else {
      var g := s.running[0];
      var s1 := s.(running := s.running[1..]);
      TakeFirst(own, before, s, plan, kept, ops.swapOut, ops.copies);
      var plan1 := MakeRoomSafe(c, own, before, s1, plan, kept, g, ops.swapOut, ops.copies, preempted);
      var room := MakeRoom(c, s1, g, ops.swapOut, preempted).value;
      var ops1 := ops.(swapOut := room.swapOut);
      if room.selfPreempted {
        plan' := ProcessSafe(c, own, before, room.state, plan1, kept, ops1, room.preempted);
      } else {
        var full := FullSeqs(c, room.state.seqs);
        var plan2 := KeepGroup(c, own, before, room.state, plan1, kept, g, room.swapOut, ops.copies, full);
        var (e, copies) := AppendGroup(room.state.engine, g.seqs, full, ops.copies).value;
        plan' := ProcessSafe(c, own, before, room.state.(engine := e), plan2, kept + [g],
                             ops1.(copies := copies), room.preempted);
      }
    }
  }

  // ----- Swapping in

  ghost predicate SwapInOk(own: Owner, before: Engine, s: State, plan: Plan, ops: Ops) {
    && QueuesOk(own, s) && Known(own, s)
    && StepOk(own, before, s.engine, plan, Ids(s.running) + Ids(s.swappedOut), Ids(s.swappedOut), Ids(s.swappedOut))
    && Describes(ops.swapIn, ops.swapOut, ops.copies, plan) && plan.out == map[]
    && Slotted(s.engine.tables, s.running)
  }

  lemma SwapInGroup(own: Owner, before: Engine, s: State, plan: Plan, ops: Ops, full: set<SeqId>) returns (plan': Plan)
    requires SwapInOk(own, before, s, plan, ops) && s.swappedOut != [] && CanSwapIn(s.engine, s.swappedOut[0].seqs)
    ensures SwapIn(s.engine, s.swappedOut[0].seqs).Done?
    ensures var g := s.swappedOut[0];
            var (e, swap) := SwapIn(s.engine, g.seqs).value;
            && (AppendGroup(e, g.seqs, full, ops.copies).Done? ==>
                  var (e', copies) := AppendGroup(e, g.seqs, full, ops.copies).value;
                  SwapInOk(own, before, s.(swappedOut := s.swappedOut[1..], running := s.running + [g], engine := e'),
                           plan', ops.(swapIn := ops.swapIn + swap, copies := copies)))
  {
    hide StepOk, IsInverse, IsCopyInverse, AppendGroup, OwnsLast, SwapIn, CanSwapIn, GroupOk;
    var g := s.swappedOut[0];
    QueueFirst(own, s.swappedOut);
    QueuePush(own, s.running, g);
    assert GroupIs(own, g.seqs, g.id) by { assert GroupOk(own, g); }
    var rest := s.swappedOut[1..];
    var live := Ids(s.running) + Ids(s.swappedOut);
    var plan1 := SwapInStep(own, before, s.engine, plan, live, Ids(s.swappedOut), Ids(s.swappedOut), g.seqs, g.id,
                            ops.swapIn);
    var (e, swap) := SwapIn(s.engine, g.seqs).value;
    assert Ids(s.running + [g]) + Ids(rest) == live;
    assert Ids(rest) == Ids(s.swappedOut) - {g.id};
    plan' := plan1;
    if AppendGroup(e, g.seqs, full, ops.copies).Done? {
      plan' := AppendGroupStep(own, before, e, plan1, live, Ids(rest), Ids(rest), g.seqs, full, ops.copies);
      var (e', copies) := AppendGroup(e, g.seqs, full, ops.copies).value;
      forall h, t | h in s.running + [g] && t in h.seqs ensures OwnsLast(e'.tables, t) {
        SlottedAfterSwapIn(own, before, s, plan, ops, full, e, h, t, plan1);
      }
    }
  }

  lemma SlottedAfterSwapIn(own: Owner, before: Engine, s: State, plan: Plan, ops: Ops, full: set<SeqId>, e: Engine,
                           h: Group, t: SeqId, plan1: Plan)
    requires SwapInOk(own, before, s, plan, ops) && s.swappedOut != [] && CanSwapIn(s.engine, s.swappedOut[0].seqs)
    requires SwapIn(s.engine, s.swappedOut[0].seqs).Done? && SwapIn(s.engine, s.swappedOut[0].seqs).value.0 == e
    requires StepOk(own, before, e, plan1, Ids(s.running) + Ids(s.swappedOut), Ids(s.swappedOut) - {s.swappedOut[0].id},
                    Ids(s.swappedOut) - {s.swappedOut[0].id})
    requires AppendGroup(e, s.swappedOut[0].seqs, full, ops.copies).Done?
    requires h in s.running + [s.swappedOut[0]] && t in h.seqs
    ensures OwnsLast(AppendGroup(e, s.swappedOut[0].seqs, full, ops.copies).value.0.tables, t)
  {
    hide StepOk, AppendGroup, OwnsLast, SwapIn, CanSwapIn, GroupOk, Describes;
    var g := s.swappedOut[0];
    var live := Ids(s.running) + Ids(s.swappedOut);
    QueueFirst(own, s.swappedOut);
    EngineOfStep(own, before, e, plan1, live, Ids(s.swappedOut) - {g.id}, Ids(s.swappedOut) - {g.id});
    GroupInTables(own, before, s.engine, plan, live, Ids(s.swappedOut), Ids(s.swappedOut), g);
    if h in s.running {
      KeptElsewhere(own, s.running, g, h, t);
      SwapInKeepsOthers(own, s.engine, g.seqs, g.id, Ids(s.swappedOut), t);
    }
    AppendGroupOwns(e, g.seqs, full, ops.copies, t);
  }

  lemma {:induction false} SwapInLoopSafe(c: Config, own: Owner, before: Engine, s: State, plan: Plan, ops: Ops)
    returns (plan': Plan)
    requires SwapInOk(own, before, s, plan, ops) && SwapInLoop(c, s, ops).Done?
    ensures var (s', ops') := SwapInLoop(c, s, ops).value;
            SwapInOk(own, before, s', plan', ops')
    decreases |s.swappedOut|
  {
    hide SwapInOk, SwapIn, CanSwapIn, AppendGroup;
    if s.swappedOut == [] || !CanSwapIn(s.engine, s.swappedOut[0].seqs) {
      plan' := plan;
    } else {
      var g := s.swappedOut[0];
      var full := FullSeqs(c, s.seqs);
      var plan1 := SwapInGroup(own, before, s, plan, ops, full);
      var (e, swap) := SwapIn(s.engine, g.seqs).value;
      var (e', copies) := AppendGroup(e, g.seqs, full, ops.copies).value;
      plan' := SwapInLoopSafe(c, own, before,
                              s.(swappedOut := s.swappedOut[1..], running := s.running + [g], engine := e'),
                              plan1, ops.(swapIn := ops.swapIn + swap, copies := copies));
    }
  }
}
