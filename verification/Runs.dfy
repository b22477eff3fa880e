/**
 Whole runs: any interleaving of requests, schedule steps, sampled tokens, finished sequences and clean-up, started
 from empty queues. Requests build groups of one sequence, as src/openai/pipelines/llm_engine.rs does.
 */
module Runs {
  import opened Outcomes
  import opened Pools
  import opened Engine
  import opened EngineLaws
  import opened AppendLaws
  import opened MemoryOps
  import opened StepInvariant
  import opened Scheduler
  import opened ScheduleSafety
  import opened ScheduleTheorem
  import opened QueueOrder
  import opened SingleSequence
  import opened Admission

  /** The engine between two events; `own` and `finished` record which requests were made and which are done. */
  datatype World = World(state: State, own: Owner, nextSeq: nat, nextGroup: nat, finished: set<nat>)

  datatype Event =
    | AddRequest(len: nat, arrival: nat)
    | ScheduleStep
    | AddToken(id: SeqId)
    | Finish(id: SeqId)
    | CleanUp

  function Start(c: Config, numCpuBlocks: nat): World {
    World(State([], [], [], Engine(NewPools(c.numGpuBlocks, numCpuBlocks), map[]), map[]), map[], 0, 0, {})
  }

  /** `add_request`: one new sequence in a new group at the end of `waiting`. */
  function Request(w: World, len: nat, arrival: nat): World {
    var g := Group(w.nextGroup, [w.nextSeq], arrival);
    World(w.state.(waiting := w.state.waiting + [g], seqs := w.state.seqs[w.nextSeq := Sequence(len, Waiting)]),
          w.own[w.nextSeq := w.nextGroup], w.nextSeq + 1, w.nextGroup + 1, w.finished)
  }

  ghost function FinishedIds(seqs: map<SeqId, Sequence>, q: seq<Group>): set<nat> {
    Ids(q) - Ids(Unfinished(seqs, q))
  }

  ghost function Next(c: Config, w: World, event: Event): Outcome<World> {
    match event
    case AddRequest(len, arrival) => Done(Request(w, len, arrival))
    case ScheduleStep =>
      var (s, out) :- Schedule(c, w.state);
      Done(w.(state := s))
    case AddToken(i) =>
      var seqs := w.state.seqs;
      Done(if i in seqs then w.(state := w.state.(seqs := seqs[i := seqs[i].(len := seqs[i].len + 1)])) else w)
    case Finish(i) =>
      var seqs := w.state.seqs;
      Done(if i in seqs then w.(state := w.state.(seqs := seqs[i := seqs[i].(status := Finished)])) else w)
    case CleanUp =>
      var s :- FreeFinished(w.state);
      Done(w.(state := s, finished := w.finished + FinishedIds(w.state.seqs, w.state.running)))
  }

  ghost function Run(c: Config, numCpuBlocks: nat, events: seq<Event>): Outcome<World>
    decreases |events|
  {
    if events == [] then
      Done(Start(c, numCpuBlocks))
    else
      var w :- Run(c, numCpuBlocks, events[..|events| - 1]);
      Next(c, w, events[|events| - 1])
  }

  // ----- The invariant of all runs

  ghost function Below(n: nat): (r: set<nat>)
    ensures forall g: nat :: g in r <==> g < n
  {
    if n == 0 then {} else Below(n - 1) + {n - 1}
  }

  /** All requests so far have distinct ids below the counters, and each is in exactly one queue or finished. */
  ghost predicate Numbered(w: World) {
    && (forall i :: i in w.own ==> i < w.nextSeq && w.own[i] < w.nextGroup)
    && Ids(w.state.waiting) !! Ids(w.state.running) !! w.finished
    && Ids(w.state.waiting) + Ids(w.state.running) + w.finished == Below(w.nextGroup)
  }

  ghost predicate WorldOk(c: Config, numCpuBlocks: nat, w: World) {
    && SchedulerOk(w.own, w.state) && AllSingle(w.state.running) && w.state.swappedOut == []
    && Exclusive(w.state.engine.tables) && Numbered(w)
    && w.state.engine.pools.refs.Keys == NewPools(c.numGpuBlocks, numCpuBlocks).refs.Keys
    && (c.maxNumSeqs > 0 ==> NumSeqs(w.state.running) <= c.maxNumSeqs - 1)
  }

  lemma StartOk(c: Config, numCpuBlocks: nat)
    ensures WorldOk(c, numCpuBlocks, Start(c, numCpuBlocks))
  {
    NewPoolsAccounted(c.numGpuBlocks, numCpuBlocks);
    var w := Start(c, numCpuBlocks);
    assert References(w.state.engine.tables) == multiset{};
    assert Ids([]) == {};
  }

  lemma BoundedStart(c: Config, numCpuBlocks: nat, e: Engine)
    requires e.pools.refs.Keys == NewPools(c.numGpuBlocks, numCpuBlocks).refs.Keys
    ensures PoolBounded(c, e)
  {
    var p := NewPools(c.numGpuBlocks, numCpuBlocks);
    forall b | b in e.pools.refs && b.dev.Gpu? ensures b.id < c.numGpuBlocks {
      assert b in p.refs;
      assert b in Fresh(Gpu, c.numGpuBlocks) || b in Fresh(Cpu, numCpuBlocks);
    }
  }

  // ----- Requests

  lemma RequestOk(c: Config, numCpuBlocks: nat, w: World, len: nat, arrival: nat)
    requires WorldOk(c, numCpuBlocks, w)
    ensures WorldOk(c, numCpuBlocks, Request(w, len, arrival))
  {
    hide Consistent, Exclusive, NewPools, NumSeqs, AllSingle;
    var w' := Request(w, len, arrival);
    var g := Group(w.nextGroup, [w.nextSeq], arrival);
    assert Ids(w.state.swappedOut) == {};
    RequestQueue(w, w.state.waiting, w'.own);
    RequestQueue(w, w.state.running, w'.own);
    RequestQueue(w, w.state.swappedOut, w'.own);
    assert GroupOk(w'.own, g);
    QueuePush(w'.own, w.state.waiting, g);
    RequestTables(w, w'.own);
    assert Below(w.nextGroup + 1) == Below(w.nextGroup) + {w.nextGroup};
    assert Numbered(w') by {
      assert Ids(w'.state.waiting) == Ids(w.state.waiting) + {w.nextGroup};
      assert w.finished <= Below(w.nextGroup);
    }
    assert forall h :: h in w'.state.waiting ==> |h.seqs| == 1;
  }

  lemma RequestQueue(w: World, q: seq<Group>, own': Owner)
    requires Numbered(w) && QueueOk(w.own, q) && Ids(q) <= Ids(w.state.waiting) + Ids(w.state.running)
    requires own' == w.own[w.nextSeq := w.nextGroup]
    ensures QueueOk(own', q) && w.nextGroup !in Ids(q)
  {
    assert Ids(q) <= Below(w.nextGroup);
    forall g | g in q ensures GroupOk(own', g) {
      assert GroupOk(w.own, g) && g.id in Ids(q);
    }
  }

  lemma RequestTables(w: World, own': Owner)
    requires Numbered(w) && w.state.swappedOut == []
    requires TablesOk(w.own, w.state.engine, Ids(w.state.running) + Ids(w.state.swappedOut), Ids(w.state.swappedOut))
    requires own' == w.own[w.nextSeq := w.nextGroup]
    ensures TablesOk(own', w.state.engine, Ids(w.state.running) + Ids(w.state.swappedOut), Ids(w.state.swappedOut))
  {
    hide Consistent;
    assert Ids(w.state.swappedOut) == {};
    assert Ids(w.state.running) <= Below(w.nextGroup);
    assert w.nextSeq !in w.own;
  }

  // ----- Schedule steps

  lemma SameGroupsSameIds(q: seq<Group>, r: seq<Group>)
    requires forall g :: g in q <==> g in r
    ensures Ids(q) == Ids(r)
  {
  }

  lemma SplitIds(a: seq<Group>, b: seq<Group>)
    ensures Ids(a + b) == Ids(a) + Ids(b)
  {
    assert forall g :: g in a + b <==> g in a || g in b;
  }

  lemma ScheduleOk(c: Config, numCpuBlocks: nat, w: World)
    requires WorldOk(c, numCpuBlocks, w) && Schedule(c, w.state).Done?
    requires Admit(c, w.state, [], []).Done? && Admit(c, w.state, [], []).value.1 == [] && Decode(c, w.state).Done?
             ==> Exclusive(Decode(c, w.state).value.0.engine.tables)
    ensures WorldOk(c, numCpuBlocks, w.(state := Schedule(c, w.state).value.0))
  {
    hide SchedulerOk, Admit, Decode, NewPools, Exclusive, AllSingle, NumSeqs, LatestFirst, Ids, Below;
    var s := w.state;
    BoundedStart(c, numCpuBlocks, s.engine);
    var plan := ScheduleSafe(c, w.own, s);
    var (s', out) := Schedule(c, s).value;
    AdmitSingle(c, w.own, s, [], []);
    var (s1, scheduled, _) := Admit(c, s, [], []).value;
    NumSeqsSingle(s.running);
    if scheduled != [] {
      ScheduleAdmits(c, w.own, s);
      SameIds(w, s');
    } else {
      AdmitSafe(c, w.own, s, [], []);
      NothingAdmitted(c, s);
      DecodeOrder(c, s);
      DecodeIds(c, w.own, s);
      SameIds(w, s');
    }
    NumSeqsSingle(s'.running);
  }

  lemma ScheduleAdmits(c: Config, own: Owner, s: State)
    requires SchedulerOk(own, s) && PoolBounded(c, s.engine) && s.swappedOut == []
    requires Admit(c, s, [], []).Done? && Admit(c, s, [], []).value.1 != []
    ensures Schedule(c, s).Done? && Schedule(c, s).value.0 == Admit(c, s, [], []).value.0
    ensures var s' := Schedule(c, s).value.0;
            Ids(s'.waiting) + Ids(s'.running) == Ids(s.waiting) + Ids(s.running) && s'.swappedOut == []
  {
    hide SchedulerOk, Admit, Decode, PoolBounded;
    AdmitSafe(c, own, s, [], []);
    var (s', scheduled, _) := Admit(c, s, [], []).value;
    assert scheduled[0..] == scheduled;
    SplitIds(scheduled, s'.waiting);
    SplitIds(s.running, scheduled);
  }

  lemma DecodeIds(c: Config, own: Owner, s: State)
    requires AllSingle(s.running) && s.swappedOut == [] && Decode(c, s).Done?
    ensures var s' := Decode(c, s).value.0;
            && Ids(s'.waiting) + Ids(s'.running) == Ids(s.waiting) + Ids(s.running) && s'.swappedOut == []
            && AllSingle(s'.running) && |s'.running| <= |s.running|
  {
    hide Decode, LatestFirst, AllSingle;
    DecodeOrder(c, s);
    var s' := Decode(c, s).value.0;
    LatestFirstDescending(s.running);
    SinglePrefix(s'.running, LatestFirst(s.running));
    SplitIds(s'.running, s'.waiting);
    SplitIds(LatestFirst(s.running), s.waiting);
    SameGroupsSameIds(LatestFirst(s.running), s.running);
  }

  lemma SameIds(w: World, s': State)
    requires Numbered(w) && SchedulerOk(w.own, s')
    requires Ids(s'.waiting) + Ids(s'.running) == Ids(w.state.waiting) + Ids(w.state.running)
    ensures Numbered(w.(state := s'))
  {
    hide Ids, TablesOk, QueueOk;
  }

  /** An admission pass that admits nothing leaves the state alone. */
  lemma NothingAdmitted(c: Config, s: State)
    requires Admit(c, s, [], []).Done? && Admit(c, s, [], []).value.1 == []
    ensures Admit(c, s, [], []).value.0 == s
  {
    AdmitGrows(c, s, [], []);
  }

  lemma {:induction false} AdmitGrows(c: Config, s: State, scheduled: seq<Group>, ignored: seq<Group>)
    requires Admit(c, s, scheduled, ignored).Done?
    ensures |Admit(c, s, scheduled, ignored).value.1| >= |scheduled|
    ensures Admit(c, s, scheduled, ignored).value.1 == scheduled ==> Admit(c, s, scheduled, ignored).value.0 == s
    decreases |s.waiting|
  {
    hide Allocate, SetStatus, CanAllocate, NumSeqs, TotalLogicalBlocks;
    if !(s.waiting == [] || c.maxNumSeqs == NumSeqs(s.running) + 1 || CanAllocate(c, s, s.waiting[0]).Later?) {
      var g := s.waiting[0];
      var impossible := CanAllocate(c, s, g).Impossible?;
      var s1 := if impossible then s.(waiting := s.waiting[1..], seqs := SetStatus(s.seqs, g, FinishedIgnored)) else s;
      var ignored1 := if impossible then ignored + [g] else ignored;
      var e := Allocate(s1.engine, g.seqs, TotalLogicalBlocks(c, s1.seqs, g.seqs)).value;
      var h := s1.waiting[0];
      AdmitGrows(c, s1.(waiting := s1.waiting[1..], running := s1.running + [h], engine := e,
                        seqs := SetStatus(s1.seqs, g, Running)), scheduled + [h], ignored1);
    }
  }

  // ----- Clean-up

  lemma {:induction false} UnfinishedOk(own: Owner, seqs: map<SeqId, Sequence>, q: seq<Group>)
    requires QueueOk(own, q)
    ensures QueueOk(own, Unfinished(seqs, q)) && Ids(Unfinished(seqs, q)) <= Ids(q)
    ensures |Unfinished(seqs, q)| <= |q|
    ensures forall g :: g in Unfinished(seqs, q) <==> g in q && !GroupFinished(seqs, g)
    decreases |q|
  {
    hide GroupFinished, GroupOk;
    if q != [] {
      QueueFirst(own, q);
      assert q == [q[0]] + q[1..];
      UnfinishedOk(own, seqs, q[1..]);
      var rest := Unfinished(seqs, q[1..]);
      if !GroupFinished(seqs, q[0]) {
        QueuePush(own, rest, q[0]);
      } else {
        assert Unfinished(seqs, q) == rest;
      }
    }
  }

  /** Freeing the finished groups of `q`: the tables of all other groups stay as they are. */
  lemma {:induction false} FreeFinishedSafe(own: Owner, e: Engine, seqs: map<SeqId, Sequence>, q: seq<Group>,
                                            others: set<nat>, onCpu: set<nat>)
    requires QueueOk(own, q) && Ids(q) !! others && TablesOk(own, e, Ids(q) + others, onCpu)
    ensures FreeFinishedGroups(e, seqs, q).Done?
    ensures var e' := FreeFinishedGroups(e, seqs, q).value;
            && TablesOk(own, e', Ids(Unfinished(seqs, q)) + others, onCpu)
            && e'.pools.refs.Keys == e.pools.refs.Keys
            && (forall i :: i in e'.tables ==> i in e.tables && e'.tables[i] == e.tables[i])
            && (forall b :: References(e'.tables)[b] <= References(e.tables)[b])
    decreases |q|
  {
    hide GroupFinished, TablesOk, FreeGroup, GroupOk, References;
    if q == [] {
      assert Ids(q) == Ids(Unfinished(seqs, q)) == {};
    } else {
      var g, rest := q[0], q[1..];
      QueueFirst(own, q);
      UnfinishedOk(own, seqs, rest);
      if GroupFinished(seqs, g) {
        FreeOneGroup(own, e, g, Ids(q) + others, onCpu);
        var e1 := FreeGroup(e, g.seqs).value;
        assert Ids(q) + others - {g.id} == Ids(rest) + others;
        FreeFinishedSafe(own, e1, seqs, rest, others, onCpu);
        assert Unfinished(seqs, q) == Unfinished(seqs, rest);
      } else {
        assert Ids(q) + others == Ids(rest) + (others + {g.id});
        FreeFinishedSafe(own, e, seqs, rest, others + {g.id}, onCpu);
        assert Unfinished(seqs, q) == [g] + Unfinished(seqs, rest);
        SplitIds([g], Unfinished(seqs, rest));
        assert Ids([g]) == {g.id};
        assert Ids(Unfinished(seqs, q)) + others == Ids(Unfinished(seqs, rest)) + (others + {g.id});
      }
    }
  }

  lemma FreeOneGroup(own: Owner, e: Engine, g: Group, live: set<nat>, onCpu: set<nat>)
    requires TablesOk(own, e, live, onCpu) && GroupOk(own, g) && g.id in live
    ensures FreeGroup(e, g.seqs).Done?
    ensures var e' := FreeGroup(e, g.seqs).value;
            && TablesOk(own, e', live - {g.id}, onCpu) && e'.pools.refs.Keys == e.pools.refs.Keys
            && (forall i :: i in e'.tables ==> i in e.tables && e'.tables[i] == e.tables[i])
            && (forall b :: References(e'.tables)[b] <= References(e.tables)[b])
  {
    hide Consistent, References, FreeGroup;
    FreeGroupLaw(e, g.seqs);
    var e' := FreeGroup(e, g.seqs).value;
    forall b ensures References(e'.tables)[b] <= References(e.tables)[b] {
      FewerReferences(e.tables, (set s | s in g.seqs), b);
    }
  }

  /** Clean-up never panics in a valid state, whatever is swapped out, and keeps it valid. */
  lemma CleanUpSafe(own: Owner, s: State)
    requires SchedulerOk(own, s)
    ensures FreeFinished(s).Done?
    ensures var s' := FreeFinished(s).value;
            && SchedulerOk(own, s') && s'.engine.pools.refs.Keys == s.engine.pools.refs.Keys
            && s'.running == Unfinished(s.seqs, s.running) && Ids(s'.running) <= Ids(s.running)
            && (forall i :: i in s'.engine.tables ==> i in s.engine.tables && s'.engine.tables[i] == s.engine.tables[i])
            && (forall b :: References(s'.engine.tables)[b] <= References(s.engine.tables)[b])
  {
    hide TablesOk, GroupFinished, References, GroupOk;
    FreeFinishedSafe(own, s.engine, s.seqs, s.running, Ids(s.swappedOut), Ids(s.swappedOut));
    UnfinishedOk(own, s.seqs, s.running);
  }

  lemma FreeFinishedOk(c: Config, numCpuBlocks: nat, w: World)
    requires WorldOk(c, numCpuBlocks, w)
    ensures FreeFinished(w.state).Done?
    ensures WorldOk(c, numCpuBlocks, Next(c, w, CleanUp).value)
  {
    hide TablesOk, NewPools, GroupFinished, References;
    var s := w.state;
    CleanUpSafe(w.own, s);
    UnfinishedOk(w.own, s.seqs, s.running);
    var running' := Unfinished(s.seqs, s.running);
    NumSeqsSingle(s.running);
    NumSeqsSingle(running');
  }

  lemma TokensOk(c: Config, numCpuBlocks: nat, w: World, seqs': map<SeqId, Sequence>)
    requires WorldOk(c, numCpuBlocks, w) && w.state.seqs.Keys <= seqs'.Keys
    ensures WorldOk(c, numCpuBlocks, w.(state := w.state.(seqs := seqs')))
  {
    hide TablesOk, NewPools, NumSeqs, Exclusive, QueueOk, Ids;
    var w' := w.(state := w.state.(seqs := seqs'));
    assert SchedulerOk(w'.own, w'.state);
  }

  // ----- Decode steps without assumptions on prompt lengths

  /** A pass that does not panic never makes a block shared. */
  lemma {:induction false} ProcessExclusive(c: Config, own: Owner, before: Engine, s: State, plan: Plan,
                                            kept: seq<Group>, ops: Ops, preempted: seq<Group>)
    requires PassOk(own, before, s, plan, kept, [], ops.swapOut, ops.copies)
    requires AllSingle(s.running) && Exclusive(s.engine.tables) && Process(c, s, kept, ops, preempted).Done?
    ensures Exclusive(Process(c, s, kept, ops, preempted).value.0.engine.tables)
    decreases |s.running|
  {
    hide PassQueues, StepOk, Slotted, IsInverse, IsCopyInverse, MakeRoom, AppendGroup, Exclusive, FullSeqs, AllSingle;
    if s.running != [] {
      var g := s.running[0];
      var s1 := s.(running := s.running[1..]);
      SingleParts(s.running);
      TakeFirst(own, before, s, plan, kept, ops.swapOut, ops.copies);
      var plan1 := MakeRoomSafe(c, own, before, s1, plan, kept, g, ops.swapOut, ops.copies, preempted);
      MakeRoomExclusive(c, own, before, s1, plan, kept, g, ops.swapOut, ops.copies, preempted);
      MakeRoomOrder(c, s1, g, ops.swapOut, preempted);
      var room := MakeRoom(c, s1, g, ops.swapOut, preempted).value;
      SinglePrefix(room.state.running, s1.running);
      var ops1 := ops.(swapOut := room.swapOut);
      if room.selfPreempted {
        ProcessExclusive(c, own, before, room.state, plan1, kept, ops1, room.preempted);
      } else {
        var full := FullSeqs(c, room.state.seqs);
        var plan2 := KeepGroup(c, own, before, room.state, plan1, kept, g, room.swapOut, ops.copies, full);
        var (e, copies) := AppendGroup(room.state.engine, g.seqs, full, ops.copies).value;
        var onCpu, todo := Ids(room.state.swappedOut), Ids([g]) + Ids(room.state.running);
        EngineOfStep(own, before, room.state.engine, plan1, Ids(kept) + Ids([g]) + Ids(room.state.running) + onCpu,
                     onCpu, todo);
        AppendExclusive(room.state.engine, g.seqs, full, ops.copies);
        ProcessExclusive(c, own, before, room.state.(engine := e), plan2, kept + [g], ops1.(copies := copies),
                         room.preempted);
      }
    }
  }

  lemma AppendExclusive(e: Engine, ids: seq<SeqId>, full: set<SeqId>, copies: map<nat, seq<nat>>)
    requires Consistent(e) && Exclusive(e.tables) && |ids| == 1 && AppendGroup(e, ids, full, copies).Done?
    ensures Exclusive(AppendGroup(e, ids, full, copies).value.0.tables)
  {
    hide Consistent, AppendSlot, References;
    AppendSlotLaw(e, ids[0], ids[0] in full);
    assert ids[1..] == [];
  }

  lemma {:induction false} MakeRoomExclusive(c: Config, own: Owner, before: Engine, s: State, plan: Plan,
                                             kept: seq<Group>, g: Group, swapOut: map<nat, nat>,
                                             copies: map<nat, seq<nat>>, preempted: seq<Group>)
    requires PassOk(own, before, s, plan, kept, [g], swapOut, copies) && |g.seqs| == 1 && AllSingle(s.running)
    requires Exclusive(s.engine.tables) && MakeRoom(c, s, g, swapOut, preempted).Done?
    ensures Exclusive(MakeRoom(c, s, g, swapOut, preempted).value.state.engine.tables)
    decreases |s.running|
  {
    hide PassOk, Preempt, CanAppend, Exclusive;
    if !CanAppend(c, s, g) {
      if s.running != [] {
        var v := s.running[|s.running| - 1];
        var s1 := s.(running := s.running[..|s.running| - 1]);
        TakeLast(own, before, s, plan, kept, g, swapOut, copies);
        assert [g] + [v] == [g, v];
        PreemptExclusive(own, before, s1, plan, kept, [g], v, swapOut, copies);
        PreemptSingle(s1, v, swapOut);
        var plan1 := PreemptSafe(own, before, s1, plan, kept, [g], v, swapOut, copies);
        var (s2, swapOut') := Preempt(s1, v, swapOut).value;
        MakeRoomExclusive(c, own, before, s2, plan1, kept, g, swapOut', copies, preempted + [v]);
      } else {
        assert [] + [g] == [g];
        PreemptExclusive(own, before, s, plan, kept, [], g, swapOut, copies);
      }
    }
  }

  lemma PreemptExclusive(own: Owner, before: Engine, s: State, plan: Plan, kept: seq<Group>, rest: seq<Group>,
                         v: Group, swapOut: map<nat, nat>, copies: map<nat, seq<nat>>)
    requires PassOk(own, before, s, plan, kept, rest + [v], swapOut, copies) && |v.seqs| == 1
    requires Exclusive(s.engine.tables)
    ensures Preempt(s, v, swapOut).Done? && Exclusive(Preempt(s, v, swapOut).value.0.engine.tables)
  {
    hide StepOk, FreeGroup, SetStatus, References;
    HandLast(own, s, kept, rest, v);
    var live := Ids(kept) + Ids(rest + [v]) + Ids(s.running) + Ids(s.swappedOut);
    GroupInTables(own, before, s.engine, plan, live, Ids(s.swappedOut), Ids(rest + [v]) + Ids(s.running), v);
    FreeGroupLaw(s.engine, v.seqs);
    forall b ensures References(FreeGroup(s.engine, v.seqs).value.tables)[b] <= 1 {
      FewerReferences(s.engine.tables, (set i | i in v.seqs), b);
    }
  }

  lemma DecodeExclusive(c: Config, own: Owner, s: State)
    requires SchedulerOk(own, s) && AllSingle(s.running) && s.swappedOut == [] && Exclusive(s.engine.tables)
    requires Decode(c, s).Done?
    ensures Exclusive(Decode(c, s).value.0.engine.tables)
  {
    hide SchedulerOk, PassOk, Process, LatestFirst, Exclusive, AllSingle;
    StepStarts(own, s);
    LatestFirstDescending(s.running);
    var s0 := s.(running := LatestFirst(s.running));
    ProcessExclusive(c, own, s.engine, s0, NoOps, [], NoMaps, []);
    ProcessOrder(c, s0, [], NoMaps, []);
    var (s1, ops, preempted) := Process(c, s0, [], NoMaps, []).value;
    LatestFirstDescending([]);
    assert LatestFirst(s1.swappedOut) == [];
  }

  // ----- Every run

  lemma NextOk(c: Config, numCpuBlocks: nat, w: World, event: Event)
    requires WorldOk(c, numCpuBlocks, w) && Next(c, w, event).Done?
    ensures WorldOk(c, numCpuBlocks, Next(c, w, event).value)
  {
    hide WorldOk, Schedule, FreeFinished, Request;
    match event
    case AddRequest(len, arrival) =>
      RequestOk(c, numCpuBlocks, w, len, arrival);
    case ScheduleStep =>
      ScheduleEventOk(c, numCpuBlocks, w);
    case AddToken(i) =>
      if i in w.state.seqs {
        TokensOk(c, numCpuBlocks, w, w.state.seqs[i := w.state.seqs[i].(len := w.state.seqs[i].len + 1)]);
      }
    case Finish(i) =>
      if i in w.state.seqs {
        TokensOk(c, numCpuBlocks, w, w.state.seqs[i := w.state.seqs[i].(status := Finished)]);
      }
    case CleanUp =>
      FreeFinishedOk(c, numCpuBlocks, w);
  }

  lemma ScheduleEventOk(c: Config, numCpuBlocks: nat, w: World)
    requires WorldOk(c, numCpuBlocks, w) && Schedule(c, w.state).Done?
    ensures WorldOk(c, numCpuBlocks, w.(state := Schedule(c, w.state).value.0))
  {
    hide SchedulerOk, Exclusive, Decode, Admit, NewPools, AllSingle, NumSeqs, Numbered;
    if Decode(c, w.state).Done? {
      DecodeExclusive(c, w.own, w.state);
    }
    ScheduleOk(c, numCpuBlocks, w);
  }

  /**
   In every state of every run: counts equal references and free lists hold exactly the unreferenced blocks; tables
   belong exactly to the running groups and share nothing; every request is in exactly one queue or finished; and at
   most `max_num_seqs - 1` sequences run.
   */
  lemma {:induction false} RunOk(c: Config, numCpuBlocks: nat, events: seq<Event>)
    requires Run(c, numCpuBlocks, events).Done?
    ensures WorldOk(c, numCpuBlocks, Run(c, numCpuBlocks, events).value)
    decreases |events|
  {
    hide WorldOk, Next, Start;
    if events == [] {
      StartOk(c, numCpuBlocks);
    } else {
      RunOk(c, numCpuBlocks, events[..|events| - 1]);
      NextOk(c, numCpuBlocks, Run(c, numCpuBlocks, events[..|events| - 1]).value, events[|events| - 1]);
    }
  }

  /** Once every group has finished and been freed, both free lists are permutations of their initial contents. */
  lemma AllFinishedAllFree(c: Config, numCpuBlocks: nat, events: seq<Event>)
    requires Run(c, numCpuBlocks, events).Done?
    requires var s := Run(c, numCpuBlocks, events).value.state; s.waiting == [] && s.running == []
    ensures var w := Run(c, numCpuBlocks, events).value;
            && multiset(w.state.engine.pools.gpuFree) == multiset(Fresh(Gpu, c.numGpuBlocks))
            && multiset(w.state.engine.pools.cpuFree) == multiset(Fresh(Cpu, numCpuBlocks))
            && w.finished == Below(w.nextGroup)
  {
    hide Run;
    RunOk(c, numCpuBlocks, events);
    var w := Run(c, numCpuBlocks, events).value;
    var e := w.state.engine;
    assert Ids([]) == {};
    assert e.tables == map[];
    assert References(e.tables) == multiset{};
    assert e.pools.FreeList(Gpu) == e.pools.gpuFree && e.pools.FreeList(Cpu) == e.pools.cpuFree;
    NothingReferencedAllFree(e.pools, Gpu);
    NothingReferencedAllFree(e.pools, Cpu);
    FreshBlocks(c, numCpuBlocks, e, Gpu, c.numGpuBlocks);
    FreshBlocks(c, numCpuBlocks, e, Cpu, numCpuBlocks);
  }

  lemma FreshBlocks(c: Config, numCpuBlocks: nat, e: Engine, d: Device, n: nat)
    requires e.pools.refs.Keys == NewPools(c.numGpuBlocks, numCpuBlocks).refs.Keys
    requires n == if d.Gpu? then c.numGpuBlocks else numCpuBlocks
    ensures multiset(set b | b in e.pools.refs && b.dev == d) == multiset(Fresh(d, n))
  {
    var all := set b | b in e.pools.refs && b.dev == d;
    forall b ensures multiset(all)[b] == multiset(Fresh(d, n))[b] {
      NoDupCount(Fresh(d, n), b);
      assert b in e.pools.refs <==> b in Fresh(Gpu, c.numGpuBlocks) || b in Fresh(Cpu, numCpuBlocks) by {
        assert b in e.pools.refs <==> b in NewPools(c.numGpuBlocks, numCpuBlocks).refs;
      }
    }
  }
}
