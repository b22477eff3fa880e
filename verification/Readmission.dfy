/**
 A run in which a sequence is preempted, admitted again and taken down the decode path: all it has in the cache is the
 position of its last token. `CacheRuns.AllWrittenIff` says when this happens.
 */
module Readmission {
  import opened Outcomes
  import opened Pools
  import opened Engine
  import opened Scheduler
  import opened ScheduleSafety
  import opened Runs
  import opened Generation
  import opened RunHistory
  import opened CacheRuns

  const G0 := Block(Gpu, 0)
  const G1 := Block(Gpu, 1)
  const A := Group(0, [0], 0)
  const B := Group(1, [1], 1)
  const C := Config(8, 3, 2)

  const Steps := [Prompt(1, 0), Prompt(2, 1), Iteration({}), Iteration({1}), Iteration({})]

  /** Both prompts wait. */
  const Requested := State([A, B], [], [], Engine(Pools([G0, G1], [], map[G0 := 0, G1 := 0]), map[]),
                           map[0 := Sequence(1, Waiting), 1 := Sequence(2, Waiting)])

  /** Both have been admitted, with a block each, and have a token more. */
  const Admitted := State([], [A, B], [], Engine(Pools([], [], map[G0 := 1, G1 := 1]), map[0 := [G1], 1 := [G0]]),
                          map[0 := Sequence(2, Running), 1 := Sequence(3, Running)])

  /** The second needed a block, took that of the first, and has finished. */
  const Preempted := State([A], [], [], Engine(Pools([G0, G1], [], map[G0 := 0, G1 := 0]), map[]),
                           map[0 := Sequence(2, Waiting), 1 := Sequence(3, Finished)])

  /** The first has been admitted again and has a token more. */
  const Readmitted := State([], [A], [], Engine(Pools([G0], [], map[G0 := 0, G1 := 1]), map[0 := [G1]]),
                            map[0 := Sequence(3, Running), 1 := Sequence(3, Finished)])

  const Own: map<SeqId, nat> := map[0 := 0, 1 := 1]

  // ----- Requests

  lemma BothRequested()
    ensures Generate(C, 0, Steps[..2]) == Done(World(Requested, Own, 2, 2, {}))
  {
    var steps := Steps[..2];
    assert steps[..1] == [Prompt(1, 0)] && steps[..1][..0] == [];
    TwoBlocks();
    var w := Request(Start(C, 0), 1, 0);
    assert Generate(C, 0, steps[..1]) == Done(w);
    assert Generate(C, 0, steps) == Done(Request(w, 2, 1));
    assert [] + [A] == [A] && [A] + [B] == [A, B];
  }

  lemma TwoBlocks()
    ensures NewPools(2, 0) == Pools([G0, G1], [], map[G0 := 0, G1 := 0])
  {
    assert Fresh(Gpu, 2) == [G0, G1] && Fresh(Cpu, 0) == [];
  }

  // ----- The first iteration

  lemma OneBlock(seqs: map<SeqId, Sequence>, i: SeqId)
    requires i in seqs && 0 < seqs[i].len <= 3
    ensures TotalLogicalBlocks(C, seqs, [i]) == 1
  {
    assert [i][1..] == [];
    assert TotalLogicalBlocks(C, seqs, [i]) == LogicalBlocks(3, seqs[i].len) + TotalLogicalBlocks(C, seqs, []);
  }

  lemma AllocateOne(e: Engine, i: SeqId)
    requires e.pools.gpuFree != []
    ensures var n := |e.pools.gpuFree| - 1;
            var b := e.pools.gpuFree[n];
            Allocate(e, [i], 1)
            == Done(Engine(Pools(e.pools.gpuFree[..n], e.pools.cpuFree, e.pools.refs[b := 1]), e.tables[i := [b]]))
  {
    assert [i][1..] == [];
    var (q, b) := Alloc(e.pools, Gpu).value;
    assert AllocTable(e.pools, 1, []) == AllocTable(q, 0, [] + [b]);
    assert [] + [b] == [b];
    assert InsertAll(e.tables, [i], [b]) == InsertAll(e.tables[i := [b]], [], [b]);
  }

  /** One turn of the admission loop. */
  lemma AdmitOne(s: State, scheduled: seq<Group>, g: Group, i: SeqId, s1: State)
    requires s.waiting != [] && s.waiting[0] == g && g.seqs == [i] && i in s.seqs && 0 < s.seqs[i].len <= 3
    requires 0 < |s.engine.pools.gpuFree| && |s.engine.pools.gpuFree| + 1 >= 2 && NumSeqs(s.running) < 7
    requires s1 == s.(waiting := s.waiting[1..], running := s.running + [g],
                      engine := Allocate(s.engine, [i], 1).value, seqs := SetStatus(s.seqs, g, Running))
    requires Allocate(s.engine, [i], 1).Done?
    ensures Admit(C, s, scheduled, []) == Admit(C, s1, scheduled + [g], [])
  {
    hide Allocate;
    OneBlock(s.seqs, i);
  }

  /** The first has a block, the second waits. */
  const Between := State([B], [A], [], Engine(Pools([G0], [], map[G0 := 0, G1 := 1]), map[0 := [G1]]),
                         map[0 := Sequence(1, Running), 1 := Sequence(2, Waiting)])

  const Scheduled := Admitted.(seqs := map[0 := Sequence(1, Running), 1 := Sequence(2, Running)])

  lemma FirstAdmitted()
    ensures Admit(C, Requested, [], []) == Admit(C, Between, [A], [])
  {
    hide Allocate, Admit;
    AllocateOne(Requested.engine, 0);
    assert [G0, G1][..1] == [G0];
    assert map[G0 := 0, G1 := 0][G1 := 1] == map[G0 := 0, G1 := 1];
    assert Allocate(Requested.engine, [0], 1) == Done(Between.engine);
    assert [A, B][1..] == [B] && [] + [A] == [A];
    assert SetStatus(Requested.seqs, A, Running) == Between.seqs;
    AdmitOne(Requested, [], A, 0, Between);
  }

  lemma SecondAdmitted()
    ensures Admit(C, Between, [A], []) == Admit(C, Scheduled, [A, B], [])
  {
    hide Allocate, Admit;
    AllocateOne(Between.engine, 1);
    assert [G0][..0] == [];
    assert map[G0 := 0, G1 := 1][G0 := 1] == map[G0 := 1, G1 := 1];
    assert Between.engine.tables[1 := [G0]] == map[0 := [G1], 1 := [G0]];
    assert Allocate(Between.engine, [1], 1) == Done(Admitted.engine);
    assert [B][1..] == [] && [A] + [B] == [A, B] && [A][1..] == [];
    assert SetStatus(Between.seqs, B, Running) == Scheduled.seqs;
    assert NumSeqs([A]) == 1 + NumSeqs([]);
    AdmitOne(Between, [A], B, 1, Scheduled);
  }

  lemma BothAdmitted()
    ensures Schedule(C, Requested) == Done((Scheduled, Output([A, B], NoMaps, [])))
    ensures AdmittedBatch(C, Requested) == [A, B]
  {
    hide Allocate;
    FirstAdmitted();
    SecondAdmitted();
    assert Admit(C, Scheduled, [A, B], []) == Done((Scheduled, [A, B], []));
  }

  /** What is left of an iteration after its schedule step. */
  lemma AfterStep(w: World, stop: set<SeqId>, s: State, batch: seq<Group>, seqs: map<SeqId, Sequence>)
    requires Schedule(C, w.state).Done? && Schedule(C, w.state).value.0 == s
    requires Schedule(C, w.state).value.1.scheduled == batch != [] && Schedule(C, w.state).value.1.ignored == []
    requires forall i :: InBatch(batch, i) ==> LookupOk(C, s, i)
    requires Sampled(s.seqs, batch, stop) == seqs
    ensures Iterate(C, w, stop) == Next(C, w.(state := s.(seqs := seqs)), CleanUp)
  {
    hide Schedule, InBatch, LookupOk, Sampled, Next;
  }

  lemma InBoth(i: SeqId)
    ensures InBatch([A, B], i) <==> i == 0 || i == 1
  {
    assert A in [A, B] && B in [A, B] && 0 in A.seqs && 1 in B.seqs;
  }

  lemma BothSampled()
    ensures Sampled(Scheduled.seqs, [A, B], {}) == Admitted.seqs
    ensures forall i :: InBatch([A, B], i) ==> LookupOk(C, Scheduled, i)
  {
    hide InBatch;
    forall i: SeqId ensures InBatch([A, B], i) <==> i == 0 || i == 1 {
      InBoth(i);
    }
  }

  lemma FirstIteration(w: World)
    requires w == World(Requested, Own, 2, 2, {})
    ensures Iterate(C, w, {}) == Done(World(Admitted, Own, 2, 2, {}))
  {
    hide Schedule, Iterate, Next, Sampled, LookupOk, InBatch;
    BothAdmitted();
    BothSampled();
    AfterStep(w, {}, Scheduled, [A, B], Admitted.seqs);
    assert !GroupFinished(Admitted.seqs, A) by { assert 0 in A.seqs; }
    assert !GroupFinished(Admitted.seqs, B) by { assert 1 in B.seqs; }
    NoneFinished(w, Admitted);
  }

  lemma NoneFinished(w: World, s: State)
    requires forall g :: g in s.running ==> !GroupFinished(s.seqs, g)
    ensures Next(C, w.(state := s), CleanUp) == Done(w.(state := s))
  {
    KeepsAll(s.engine, s.seqs, s.running);
    assert FinishedIds(s.seqs, s.running) == {};
    assert w.finished + {} == w.finished;
  }

  lemma {:induction false} KeepsAll(e: Engine, seqs: map<SeqId, Sequence>, q: seq<Group>)
    requires forall g :: g in q ==> !GroupFinished(seqs, g)
    ensures FreeFinishedGroups(e, seqs, q) == Done(e) && Unfinished(seqs, q) == q
  {
    if q != [] {
      KeepsAll(e, seqs, q[1..]);
      assert [q[0]] + q[1..] == q;
    }
  }

  // ----- The second iteration

  /** In the order of the pass the second group comes first. */
  lemma Order()
    ensures LatestFirst([A, B]) == [B, A] && LatestFirst([]) == []
  {
    assert [A, B][..1] == [A] && [A][..0] == [] && [] + [A] == [A] && [A] + [B] == [A, B];
    assert SortByArrival([A]) == InsertByArrival(SortByArrival([]), A) == [A];
    assert SortByArrival([A, B]) == InsertByArrival([A], B) == [A, B];
    assert [A, B][1..] == [B] && [B][1..] == [];
    assert Reversed([B]) == Reversed([]) + [B] == [B];
    assert Reversed([A, B]) == Reversed([B]) + [A] == [B, A];
  }

  /** The first group gives its block back. */
  const Room1 := State([A], [], [], Engine(Pools([G1], [], map[G0 := 1, G1 := 0]), map[1 := [G0]]),
                       map[0 := Sequence(2, Waiting), 1 := Sequence(3, Running)])

  lemma FirstPreempted()
    ensures Preempt(Admitted.(running := []), A, map[]) == Done((Room1, map[]))
  {
    var e := Admitted.engine;
    assert [0][1..] == [] && [G1][1..] == [] && [] + [G1] == [G1] && [A] + [] == [A];
    var p := Release(e.pools, Gpu, G1).value;
    assert p.refs == map[G0 := 1, G1 := 0];
    assert ReleaseAll(e.pools, [G1]) == ReleaseAll(p, []) == Done(Room1.engine.pools);
    assert e.tables - {0} == map[1 := [G0]];
    assert FreeGroup(e, [0]) == FreeGroup(Room1.engine, []) == Done(Room1.engine);
    assert SetStatus(Admitted.seqs, A, Waiting) == Room1.seqs;
  }

  lemma FullNow(seqs: map<SeqId, Sequence>)
    requires seqs.Keys == {0, 1} && seqs[0].len == 2 && seqs[1].len == 3
    ensures FullSeqs(C, seqs) == {1} && BlocksToAppend([1], FullSeqs(C, seqs)) == 1
  {
    assert [1][1..] == [];
    assert BlocksToAppend([1], {1}) == 1 + BlocksToAppend([], {1});
  }

  lemma RoomMade()
    ensures MakeRoom(C, Admitted.(running := [A]), B, map[], []) == Done(Room(Room1, map[], [A], false))
  {
    hide Preempt, FullSeqs, BlocksToAppend;
    var s := Admitted.(running := [A]);
    FullNow(s.seqs);
    FullNow(Room1.seqs);
    FirstPreempted();
    assert [A][..0] == [] && s.(running := []) == Admitted.(running := []) && [] + [A] == [A];
    assert MakeRoom(C, Room1, B, map[], [A]) == Done(Room(Room1, map[], [A], false));
  }

  /** The second group runs on alone, with two blocks. */
  const Alone := State([A], [B], [], Engine(Pools([], [], map[G0 := 1, G1 := 1]), map[1 := [G0, G1]]), Room1.seqs)

  lemma SlotAppended()
    ensures AppendGroup(Room1.engine, [1], {1}, map[]) == Done((Alone.engine, map[]))
  {
    assert [1][1..] == [] && [G1][..0] == [] && [G0] + [G1] == [G0, G1];
    assert map[G0 := 1, G1 := 0][G1 := 1] == map[G0 := 1, G1 := 1];
    assert map[1 := [G0]][1 := [G0, G1]] == map[1 := [G0, G1]];
    assert AppendSlot(Room1.engine, 1, true) == Done((Alone.engine, None));
    assert AppendGroup(Alone.engine, [], {1}, map[]) == Done((Alone.engine, map[]));
  }

  lemma SecondScheduled()
    ensures Schedule(C, Admitted) == Done((Alone, Output([B], NoMaps, []))) && AdmittedBatch(C, Admitted) == []
  {
    hide MakeRoom, FullSeqs, AppendGroup, LatestFirst;
    Order();
    RoomMade();
    FullNow(Room1.seqs);
    SlotAppended();
    assert [B, A][1..] == [A] && [] + [B] == [B];
    var s := Admitted.(running := [B, A]);
    assert s.(running := [A]) == Admitted.(running := [A]);
    assert Process(C, Alone.(running := []), [B], NoMaps, [A]) == Done((Alone, NoMaps, [A]));
    assert Process(C, s, [], NoMaps, []) == Done((Alone, NoMaps, [A]));
  }

  lemma SecondFreed()
    ensures FreeGroup(Alone.engine, [1]) == Done(Preempted.engine)
  {
    var p := Alone.engine.pools;
    assert [1][1..] == [] && [G0, G1][1..] == [G1] && [G1][1..] == [] && [] + [G0] == [G0] && [G0] + [G1] == [G0, G1];
    var p1 := Release(p, Gpu, G0).value;
    assert p1.refs == map[G0 := 0, G1 := 1];
    var p2 := Release(p1, Gpu, G1).value;
    assert p2.refs == map[G0 := 0, G1 := 0];
    assert ReleaseAll(p, [G0, G1]) == ReleaseAll(p1, [G1]) == ReleaseAll(p2, []) == Done(Preempted.engine.pools);
    assert Alone.engine.tables - {1} == map[];
    assert FreeGroup(Preempted.engine, []) == Done(Preempted.engine);
  }

  lemma SecondSampled()
    ensures Sampled(Alone.seqs, [B], {1}) == Preempted.seqs
    ensures forall i :: InBatch([B], i) ==> LookupOk(C, Alone, i)
  {
    assert forall i :: InBatch([B], i) <==> i == 1 by { assert B in [B] && 1 in B.seqs; }
  }

  lemma SecondFinished(w: World)
    requires w == World(Alone.(seqs := Preempted.seqs), Own, 2, 2, {})
    ensures Next(C, w, CleanUp) == Done(World(Preempted, Own, 2, 2, {1}))
  {
    hide FreeGroup;
    SecondFreed();
    assert [B][1..] == [] && GroupFinished(Preempted.seqs, B);
    assert FreeFinishedGroups(Alone.engine, Preempted.seqs, [B])
        == FreeFinishedGroups(Preempted.engine, Preempted.seqs, []) == Done(Preempted.engine);
    assert Unfinished(Preempted.seqs, [B]) == [] + Unfinished(Preempted.seqs, []) == [];
    assert Ids([B]) == {1} && Ids([]) == {} by { assert [B][0] == B; }
    assert FinishedIds(Preempted.seqs, [B]) == {1};
    var s := Alone.(seqs := Preempted.seqs);
    assert FreeFinished(s) == Done(s.(running := [], engine := Preempted.engine)) == Done(Preempted);
    assert w.finished + {1} == {1};
  }

  lemma SecondIteration(w: World)
    requires w == World(Admitted, Own, 2, 2, {})
    ensures Iterate(C, w, {1}) == Done(World(Preempted, Own, 2, 2, {1}))
  {
    hide Schedule, Iterate, Next, Sampled, LookupOk, InBatch;
    SecondScheduled();
    SecondSampled();
    AfterStep(w, {1}, Alone, [B], Preempted.seqs);
    SecondFinished(w.(state := Alone.(seqs := Preempted.seqs)));
  }

  // ----- The third iteration

  const Again := Readmitted.(seqs := map[0 := Sequence(2, Running), 1 := Sequence(3, Finished)])

  lemma AdmittedAgain()
    ensures Schedule(C, Preempted) == Done((Again, Output([A], NoMaps, []))) && AdmittedBatch(C, Preempted) == [A]
  {
    hide Allocate;
    AllocateOne(Preempted.engine, 0);
    assert [G0, G1][..1] == [G0];
    assert map[G0 := 0, G1 := 0][G1 := 1] == map[G0 := 0, G1 := 1];
    assert Allocate(Preempted.engine, [0], 1) == Done(Again.engine);
    assert [A][1..] == [] && [] + [A] == [A];
    assert SetStatus(Preempted.seqs, A, Running) == Again.seqs;
    AdmitOne(Preempted, [], A, 0, Again);
    assert Admit(C, Again, [A], []) == Done((Again, [A], []));
  }

  lemma ThirdSampled()
    ensures Sampled(Again.seqs, [A], {}) == Readmitted.seqs
    ensures forall i :: InBatch([A], i) ==> LookupOk(C, Again, i)
  {
    assert forall i :: InBatch([A], i) <==> i == 0 by { assert A in [A] && 0 in A.seqs; }
  }

  lemma ThirdIteration(w: World)
    requires w == World(Preempted, Own, 2, 2, {1})
    ensures Iterate(C, w, {}) == Done(World(Readmitted, Own, 2, 2, {1}))
  {
    hide Schedule, Iterate, Next, Sampled, LookupOk, InBatch;
    AdmittedAgain();
    ThirdSampled();
    AfterStep(w, {}, Again, [A], Readmitted.seqs);
    assert !GroupFinished(Readmitted.seqs, A) by { assert 0 in A.seqs; }
    NoneFinished(w, Readmitted);
  }

  // ----- The run

  lemma WholeRun()
    ensures Generate(C, 0, Steps[..4]) == Done(World(Preempted, Own, 2, 2, {1}))
    ensures Generate(C, 0, Steps) == Done(World(Readmitted, Own, 2, 2, {1}))
  {
    hide Iterate;
    BothRequested();
    assert Steps[..3][..2] == Steps[..2] && Steps[..4][..3] == Steps[..3] && Steps[..4] == Steps[..|Steps| - 1];
    FirstIteration(Generate(C, 0, Steps[..2]).value);
    assert Generate(C, 0, Steps[..3]) == Done(World(Admitted, Own, 2, 2, {}));
    SecondIteration(Generate(C, 0, Steps[..3]).value);
    ThirdIteration(Generate(C, 0, Steps[..4]).value);
  }

  /** The sequence runs with three tokens, and the first has not been written since it was admitted again. */
  lemma ReadmittedUnwritten()
    ensures IsRun(C, 0, Steps)
    ensures var s := Generate(C, 0, Steps).value.state;
            && s.running == [A] && 0 in s.engine.tables && Len(s.seqs, 0) == 3
            && exists pos: nat :: pos < Len(s.seqs, 0) - 1 && pos !in Written(C, 0, Steps, 0)
  {
    hide Generate, Written, CacheRun;
    WholeRun();
    var d: Data<nat>, m: Cells<nat> := (i, pos) => 0, slot => 0;
    var ds, ms := RunHasCells(C, 0, Steps, d, m, [d, d, d, d, d]);
    NotFilled();
    AllWrittenIff(C, 0, Steps, ds, ms, 0);
  }

  lemma NotFilled()
    requires Generate(C, 0, Steps[..4]) == Done(World(Preempted, Own, 2, 2, {1}))
    ensures 0 in Filled(C, 0, Steps) && !Filled(C, 0, Steps)[0]
    ensures 0 in History(C, 0, Steps) && History(C, 0, Steps)[0] == 2
  {
    hide Generate, Schedule, Admit, AdmittedBatch;
    assert Steps[..4] == Steps[..|Steps| - 1];
    AdmittedAgain();
    assert InBatch([A], 0) by { assert A in [A] && 0 in A.seqs; }
    Prompts();
  }

  lemma Prompts()
    ensures PromptLens(Steps) == [1, 2]
  {
    assert Steps[..|Steps| - 1] == Steps[..4] && Steps[..4][..3] == Steps[..3] && Steps[..3][..2] == Steps[..2];
    assert Steps[..2][..1] == Steps[..1] && Steps[..1][..0] == [];
    assert PromptLens(Steps[..1]) == PromptLens([]) + [1] == [1];
    assert PromptLens(Steps[..2]) == [1] + [2] == [1, 2];
    assert PromptLens(Steps[..3]) == [1, 2] + [] == [1, 2];
    assert PromptLens(Steps[..4]) == [1, 2] + [] == [1, 2];
  }
}
