/**
 Places where the source falls short of its own comments or of what the design needs, an input for each. When the code
 does meet them, exactly, is stated by `Admission.VerdictAgreesIff`, `EngineLaws.AllocateKeepsAccountingIff`,
 `SwapInDefect.SwapInAsWrittenIff`, `FlagDefect.FreeAsWrittenIff`, `AppendLaws.AppendGroupIff`,
 `SwapInRoom.SwapInTurnIff`, `Slots.DecodeWriteIff`, `Generation.IteratePanicsIff` and
 `Sequences.NewAsWrittenPanicsIff`.
 */
module Defects {
  import opened Outcomes
  import opened Pools
  import opened Engine
  import opened EngineLaws
  import opened AppendLaws
  import opened StepInvariant
  import opened Scheduler
  import opened ScheduleSafety
  import opened ScheduleTheorem
  import opened Arithmetic
  import opened QueueOrder
  import opened SingleSequence
  import Admission
  import RunHistory
  import IterationCounts
  import FlagDefect
  import Sequences
  import Slots
  import SwapInRoom
  import opened Runs
  import opened Generation

  const G0 := Block(Gpu, 0)
  const G1 := Block(Gpu, 1)
  const G2 := Block(Gpu, 2)
  const C0 := Block(Cpu, 0)
  const C1 := Block(Cpu, 1)

  // ----- Admission

  /**
   Two prompts, the second needing no fewer blocks than the first, each of which fits an empty engine but not both: the
   verdict on the second is `Ok` where `Later` is meant, and the first iteration panics.
   */
  lemma VerdictTooEager(c: Config, numCpuBlocks: nat, first: nat, second: nat, stop: set<SeqId>)
    requires c.blockSize > 0 && 0 < first && 0 < second && c.maxNumSeqs != 1 && c.maxNumSeqs != 2
    requires var a, b := CeilDiv(first, c.blockSize), CeilDiv(second, c.blockSize); a <= b <= c.numGpuBlocks < a + b
    ensures var a, b := CeilDiv(first, c.blockSize), CeilDiv(second, c.blockSize);
            Admission.IntendedVerdict(b, c.numGpuBlocks - a, c.numGpuBlocks) == Later
    ensures Generate(c, numCpuBlocks, [Prompt(first, 0), Prompt(second, 0)]).Done?
    ensures Generate(c, numCpuBlocks, [Prompt(first, 0), Prompt(second, 0), Iteration(stop)]).Panic?
  {
    hide CeilDiv, IterationCounts.Keeping;
    var steps := [Prompt(first, 0), Prompt(second, 0)];
    var s := TwoPrompts(c, numCpuBlocks, first, second);
    hide Generate;
    PromptBlocks(c, s.seqs, 0, first);
    PromptBlocks(c, s.seqs, 1, second);
    var a, b := CeilDiv(first, c.blockSize), CeilDiv(second, c.blockSize);
    assert IterationCounts.Needs(c, s.seqs, s.waiting) == [a, b];
    assert [a, b][1..] == [b];
    assert IterationCounts.Admissible(c.numGpuBlocks, c.numGpuBlocks - a, c.maxNumSeqs, 1, [b]).Panic?;
    assert IterationCounts.Admissible(c.numGpuBlocks, c.numGpuBlocks, c.maxNumSeqs, 0, [a, b]).Panic?;
    IterationCounts.NextIterationPanicsIff(c, numCpuBlocks, steps, stop);
    assert steps + [Iteration(stop)] == [Prompt(first, 0), Prompt(second, 0), Iteration(stop)];
  }

  lemma TwoPrompts(c: Config, numCpuBlocks: nat, first: nat, second: nat) returns (s: State)
    requires c.blockSize > 0 && first > 0 && second > 0
    ensures RunHistory.IsRun(c, numCpuBlocks, [Prompt(first, 0), Prompt(second, 0)])
    ensures Generate(c, numCpuBlocks, [Prompt(first, 0), Prompt(second, 0)]).value.state == s
    ensures s.waiting == [Group(0, [0], 0), Group(1, [1], 0)] && s.running == []
    ensures |s.engine.pools.gpuFree| == c.numGpuBlocks && Len(s.seqs, 0) == first && Len(s.seqs, 1) == second
  {
    hide NewPools;
    AllFreeAtStart(c, numCpuBlocks);
    var steps := [Prompt(first, 0), Prompt(second, 0)];
    assert steps[..1] == [Prompt(first, 0)] && steps[..1][..0] == [];
    var w := Request(Start(c, numCpuBlocks), first, 0);
    assert Generate(c, numCpuBlocks, steps[..1]) == Done(w);
    assert Generate(c, numCpuBlocks, steps) == Done(Request(w, second, 0));
    s := Request(w, second, 0).state;
  }

  /** Two new sequences share a table of one block whose count is one. */
  lemma SharedTableMiscounted()
    ensures var e := Engine(Pools([G0], [], map[G0 := 0]), map[]);
            && Consistent(e) && Allocate(e, [1, 2], 1).Done? && !Consistent(Allocate(e, [1, 2], 1).value)
  {
    var e := Engine(Pools([G0], [], map[G0 := 0]), map[]);
    AllocateKeepsAccountingIff(e, [1, 2], 1);
  }

  // ----- A group of two sequences

  lemma TwoTables(tables: Tables)
    requires tables.Keys == {1, 2}
    ensures References(tables) == multiset(tables[1]) + multiset(tables[2])
  {
    ReferencesSplit(tables, 1);
    ReferencesSplit(tables - {1}, 2);
    assert tables - {1} - {2} == map[];
    assert (tables - {1})[2] == tables[2];
  }

  const Pair := Group(0, [1, 2], 0)
  const PairOwner: Owner := map[1 := 0, 2 := 0]

  /** Both sequences have two tokens. */
  const TwoTokens: map<SeqId, Sequence> := map[1 := Sequence(2, Running), 2 := Sequence(2, Running)]

  lemma PairGroup()
    ensures GroupOk(PairOwner, Pair) && Pair.seqs == [1, 2]
    ensures QueueOk(PairOwner, [Pair]) && Ids([Pair]) == {0} && QueueOk(PairOwner, []) && Ids([]) == {}
  {
    assert forall s :: s in [1, 2] <==> s == 1 || s == 2;
  }

  /**
   Swapped out, the two share one block. There are GPU blocks enough but no other CPU block: `swap_in` as written
   panics.
   */
  lemma SwapInTakesFromCpu()
    ensures var e := Engine(Pools([G0, G1], [], map[G0 := 0, G1 := 0, C0 := 2]), map[1 := [C0], 2 := [C0]]);
            && Consistent(e) && CanSwapIn(e, [1, 2]) && SwapIn(e, [1, 2]).Done? && SwapInAsWritten(e, [1, 2]).Panic?
  {
    var e := Engine(Pools([G0, G1], [], map[G0 := 0, G1 := 0, C0 := 2]), map[1 := [C0], 2 := [C0]]);
    TwoTables(e.tables);
    PairLength(e);
    var _ := SwapInLaw(e, [1, 2]);
    assert MoveTable(e.pools, [C0], Cpu, Gpu, map[]).Panic?;
  }

  lemma PairLength(e: Engine)
    requires 1 in e.tables && 2 in e.tables && |e.tables[1]| == |e.tables[2]| == 1
    ensures TotalLength(e.tables, [1, 2]) == 2
  {
    assert [1, 2][1..] == [2] && [2][1..] == [];
    assert TotalLength(e.tables, [2]) == 1 + TotalLength(e.tables, []);
  }

  /** The state in which the pair is swapped out and both last blocks are full; two GPU blocks are free. */
  const SwappedPair := State([], [], [Pair],
    Engine(Pools([G0, G1], [], map[G0 := 0, G1 := 0, C0 := 2]), map[1 := [C0], 2 := [C0]]), TwoTokens)

  /**
   A valid state with the pair swapped out: the guard lets it in, one block goes to the swap and two are needed for
   the slots, and the schedule step panics.
   */
  lemma SwapInGuardForgetsSlots()
    ensures var c, s := Config(8, 2, 2), SwappedPair;
            && SchedulerOk(PairOwner, s) && PoolBounded(c, s.engine) && CanSwapIn(s.engine, Pair.seqs)
            && Schedule(c, s).Panic?
  {
    hide SchedulerOk, Schedule, Consistent, FullSeqs, GroupBlockIds, TotalLength, SwapInRoom.KeptLasts;
    var c, s := Config(8, 2, 2), SwappedPair;
    SwappedPairConsistent();
    PairValid(s, C0);
    PairLength(s.engine);
    BothFull(c);
    PairNeeds(s.engine, FullSeqs(c, s.seqs));
    PairPanics(c, s);
  }

  lemma SwappedPairConsistent()
    ensures Consistent(SwappedPair.engine)
  {
    TwoTables(SwappedPair.engine.tables);
  }

  lemma BothFull(c: Config)
    requires c.blockSize == 2
    ensures FullSeqs(c, TwoTokens) == {1, 2}
  {
  }

  lemma PairPanics(c: Config, s: State)
    requires SchedulerOk(PairOwner, s) && s.running == [] && s.swappedOut == [Pair] && CanSwapIn(s.engine, Pair.seqs)
    requires |GroupBlockIds(s.engine.tables, [1, 2])| == 1
    requires SwapInRoom.KeptLasts(s.engine.tables, [1, 2], FullSeqs(c, s.seqs)) == {} && |s.engine.pools.gpuFree| == 2
    ensures Schedule(c, s).Panic?
  {
    hide SchedulerOk, SwapIn, AppendGroup, CanSwapIn, FullSeqs, SwapInRoom.KeptLasts, GroupBlockIds, LatestFirst,
         SwapInRoom.OpenEnds;
    SwapInRoom.SwapInTurnIff(c, PairOwner, s, NoMaps);
    OneSorted(s);
    assert s.(running := []) == s && s.(swappedOut := [Pair]) == s;
    assert Process(c, s, [], NoMaps, []) == Done((s, NoMaps, []));
    assert SwapInLoop(c, s, NoMaps).Panic?;
  }

  /** A state whose only group is the pair, sharing block `x`, is valid when its engine is. */
  lemma PairValid(s: State, x: Block)
    requires Consistent(s.engine) && s.engine.tables == map[1 := [x], 2 := [x]] && s.waiting == []
    requires s.seqs.Keys == {1, 2}
    requires if x.dev.Gpu? then s.running == [Pair] && s.swappedOut == [] else s.running == [] && s.swappedOut == [Pair]
    ensures SchedulerOk(PairOwner, s)
  {
    hide Consistent;
    PairGroup();
    assert Ids(s.running) + Ids(s.swappedOut) == {0};
    assert QueuesOk(PairOwner, s) by {
      hide GroupOk;
    }
  }

  lemma PairNeeds(e: Engine, full: set<SeqId>)
    requires e.tables == map[1 := [C0], 2 := [C0]] && {1, 2} <= full
    ensures |GroupBlockIds(e.tables, [1, 2])| == 1 && SwapInRoom.KeptLasts(e.tables, [1, 2], full) == {}
  {
    assert GroupBlockIds(e.tables, [1, 2]) == {0} by {
      assert 1 in [1, 2] && C0 in e.tables[1];
    }
  }

  lemma OneSorted(s: State)
    requires s.running == [] && s.swappedOut == [Pair]
    ensures LatestFirst(s.running) == [] && LatestFirst(s.swappedOut) == [Pair]
  {
    assert SortByArrival([Pair]) == [Pair] by {
      assert [Pair][..0] == [];
    }
    assert Reversed([Pair]) == Reversed([]) + [Pair] by {
      assert [Pair][1..] == [];
    }
  }

  /** The state in which the pair runs with one token each in a block they share; no block is free. */
  const OpenPair := State([], [Pair], [], Engine(Pools([], [], map[G0 := 2]), map[1 := [G0], 2 := [G0]]),
                          map[1 := Sequence(1, Running), 2 := Sequence(1, Running)])

  /**
   A valid state in which the guard asks for no block, the second append needs one for its copy, and the step panics.
   */
  lemma GuardForgetsCopies()
    ensures var c, s := Config(8, 2, 1), OpenPair;
            && SchedulerOk(PairOwner, s) && PoolBounded(c, s.engine) && CanAppend(c, s, Pair) && Decode(c, s).Panic?
  {
    hide SchedulerOk, Consistent, AppendGroup, Process;
    var c, s := Config(8, 2, 1), OpenPair;
    OpenPairConsistent();
    PairValid(s, G0);
    PairSorted(s);
    OpenPairPanics(c, s);
  }

  lemma OpenPairConsistent()
    ensures Consistent(OpenPair.engine)
  {
    TwoTables(OpenPair.engine.tables);
  }

  lemma OpenPairPanics(c: Config, s: State)
    requires c == Config(8, 2, 1) && s == OpenPair
    ensures CanAppend(c, s, Pair) && Process(c, s, [], NoMaps, []).Panic?
  {
    var full := FullSeqs(c, s.seqs);
    assert full == {};
    assert [1, 2][1..] == [2] && [2][1..] == [] && [Pair][1..] == [];
    assert BlocksToAppend([1, 2], full) == BlocksToAppend([2], full) == BlocksToAppend([], full) == 0;
    assert AppendSlot(s.engine, 1, false).Panic?;
    assert AppendGroup(s.engine, [1, 2], full, map[]).Panic?;
    var s0 := s.(running := []);
    assert MakeRoom(c, s0, Pair, map[], []) == Done(Room(s0, map[], [], false));
  }

  /** The state in which the pair runs, both sequences with the same full block; two GPU blocks are free. */
  const RunningPair := State([], [Pair], [],
    Engine(Pools([G1, G2], [], map[G0 := 2, G1 := 0, G2 := 0]), map[1 := [G0], 2 := [G0]]), TwoTokens)

  /**
   A valid state with the pair running: the step gives each a new block, makes no copy, and both tokens are then written
   to the same slot of the block they share.
   */
  lemma SharedBlockOverwritten()
    ensures var c, s := Config(8, 2, 3), RunningPair;
            && SchedulerOk(PairOwner, s) && PoolBounded(c, s.engine) && Decode(c, s).Done?
            && var (s', out) := Decode(c, s).value;
            && out.scheduled == [Pair] && out.ops.copies == map[] && LookupOk(c, s', 1) && LookupOk(c, s', 2)
            && Slots.Slot(2, s'.engine.tables[1], Len(s'.seqs, 1) - 1) ==
               Slots.Slot(2, s'.engine.tables[2], Len(s'.seqs, 2) - 1)
  {
    hide SchedulerOk, Decode, Consistent, FullSeqs, AppendGroup, Slots.Slot, LookupOk;
    var c, s := Config(8, 2, 3), RunningPair;
    RunningPairConsistent();
    PairValid(s, G0);
    PairDecodes(c, s);
    PairWrites(c, s);
  }

  lemma RunningPairConsistent()
    ensures Consistent(RunningPair.engine)
  {
    TwoTables(RunningPair.engine.tables);
  }

  lemma PairWrites(c: Config, s: State)
    requires c == Config(8, 2, 3) && s == RunningPair && Consistent(s.engine)
    requires AppendGroup(s.engine, [1, 2], FullSeqs(c, s.seqs), map[]).Done?
    ensures var e := AppendGroup(s.engine, [1, 2], FullSeqs(c, s.seqs), map[]).value.0;
            var s' := s.(engine := e);
            && LookupOk(c, s', 1) && LookupOk(c, s', 2)
            && Slots.Slot(2, e.tables[1], Len(s'.seqs, 1) - 1) == Slots.Slot(2, e.tables[2], Len(s'.seqs, 2) - 1)
  {
    hide Consistent, AppendGroup, References;
    AppendGroupLaw(s.engine, [1, 2], FullSeqs(c, s.seqs), map[]);
    var e := AppendGroup(s.engine, [1, 2], FullSeqs(c, s.seqs), map[]).value.0;
    assert 1 in [1, 2] && 2 in [1, 2] && FullSeqs(c, s.seqs) == {1, 2};
    assert e.tables[1][0] == G0 && e.tables[2][0] == G0;
  }

  lemma PairDecodes(c: Config, s: State)
    requires c == Config(8, 2, 3) && s == RunningPair && Consistent(s.engine)
    ensures AppendGroup(s.engine, [1, 2], FullSeqs(c, s.seqs), map[]).Done?
    ensures var (e, copies) := AppendGroup(s.engine, [1, 2], FullSeqs(c, s.seqs), map[]).value;
            && copies == map[]
            && Decode(c, s) == Done((s.(engine := e), Output([Pair], Ops(map[], map[], copies), [])))
  {
    var full := FullSeqs(c, s.seqs);
    assert full == {1, 2};
    assert [1, 2][1..] == [2] && [2][1..] == [];
    var (e1, _) := AppendSlot(s.engine, 1, true).value;
    var (e2, _) := AppendSlot(e1, 2, true).value;
    assert AppendGroup(s.engine, [1, 2], full, map[]) == AppendGroup(e1, [2], full, map[]) ==
           AppendGroup(e2, [], full, map[])
        == Done((e2, map[]));
    assert BlocksToAppend([1, 2], full) == 1 + BlocksToAppend([2], full) == 2 + BlocksToAppend([], full);
    PairSorted(s);
    var s0 := s.(running := []);
    assert MakeRoom(c, s0, Pair, map[], []) == Done(Room(s0, map[], [], false));
    assert [Pair][1..] == [] && [] + [Pair] == [Pair];
    var s1 := s0.(engine := e2);
    assert Process(c, s1, [Pair], NoMaps, []) == Done((s1.(running := [Pair]), NoMaps, []));
    assert Process(c, s, [], NoMaps, []) == Process(c, s1, [] + [Pair], NoMaps, []);
  }

  lemma PairSorted(s: State)
    requires s.running == [Pair] && s.swappedOut == []
    ensures LatestFirst(s.running) == [Pair] && LatestFirst(s.swappedOut) == []
  {
    OneSorted(s.(running := [], swappedOut := [Pair]));
  }

  // ----- The device flag

  /** Freeing a sequence with a CPU block as written puts the block into the GPU pool. */
  lemma CpuBlockMisfiled()
    ensures var e := Engine(Pools([], [], map[C0 := 1, C1 := 1]), map[1 := [C0], 2 := [C1]]);
            && Consistent(e) && FlagDefect.FreeSequenceAsWritten(e, 1).Done?
            && C0 in FlagDefect.FreeSequenceAsWritten(e, 1).value.pools.gpuFree
            && !Consistent(FlagDefect.FreeSequenceAsWritten(e, 1).value)
  {
    var e := Engine(Pools([], [], map[C0 := 1, C1 := 1]), map[1 := [C0], 2 := [C1]]);
    TwoTables(e.tables);
    FlagDefect.FreeAsWrittenIff(e, 1);
    FlagDefect.ReleaseAllMisfiles(e.pools, [C0], C0);
    assert C0 in e.tables[1] && C0.dev.Cpu? && References(e.tables)[C0] == 1;
  }

  // ----- The decode lookup

  /** A prompt that fills its blocks exactly, alone in an engine that has room for it. */
  ghost predicate FullPrompt(c: Config, len: nat) {
    c.blockSize > 1 && len > 0 && len % c.blockSize == 0 && c.maxNumSeqs != 1
    && CeilDiv(len, c.blockSize) <= c.numGpuBlocks
  }

  const First := Group(0, [0], 0)

  /** The state after such a prompt was admitted and one token sampled, with engine `e`. */
  function AfterOne(e: Engine, len: nat): State {
    State([], [First], [], e, map[0 := Sequence(len + 1, Running)])
  }

  lemma StartWorld(c: Config, numCpuBlocks: nat, len: nat)
    requires c.blockSize > 0 && len > 0
    ensures GenerationOk(c, numCpuBlocks, Request(Start(c, numCpuBlocks), len, 0), map[])
    ensures Generate(c, numCpuBlocks, [Prompt(len, 0)]) == Done(Request(Start(c, numCpuBlocks), len, 0))
  {
    hide GenerationOk, Start, Request;
    NoTablesYet(c, numCpuBlocks);
    PromptOk(c, numCpuBlocks, Start(c, numCpuBlocks), map[], len, 0);
    assert [Prompt(len, 0)][..0] == [];
    assert Generate(c, numCpuBlocks, []) == Done(Start(c, numCpuBlocks));
  }

  /** Admission of the prompt: one block per logical block. */
  lemma PromptAdmitted(c: Config, numCpuBlocks: nat, len: nat) returns (e: Engine)
    requires FullPrompt(c, len)
    ensures var s := Request(Start(c, numCpuBlocks), len, 0).state;
            Schedule(c, s) ==
            Done((State([], [First], [], e, map[0 := Sequence(len, Running)]), Output([First], NoMaps, [])))
    ensures e.tables.Keys == {0} && |e.tables[0]| == CeilDiv(len, c.blockSize)
  {
    hide Consistent, NewPools, Allocate, SchedulerOk;
    var w := Request(Start(c, numCpuBlocks), len, 0);
    var s := w.state;
    StartOk(c, numCpuBlocks);
    RequestOk(c, numCpuBlocks, Start(c, numCpuBlocks), len, 0);
    BoundedStart(c, numCpuBlocks, s.engine);
    assert SchedulerOk(w.own, s);
    var n := TotalLogicalBlocks(c, s.seqs, [0]);
    PromptBlocks(c, s.seqs, 0, len);
    AllFreeAtStart(c, numCpuBlocks);
    Admission.AdmissionPanicsIff(c, w.own, s, [], []);
    ConsistentStart(c, numCpuBlocks);
    AllocateLaw(s.engine, 0, n);
    e := Allocate(s.engine, [0], n).value;
    var s1 := State([], [First], [], e, SetStatus(s.seqs, First, Running));
    assert s1.seqs == map[0 := Sequence(len, Running)];
    assert [First][1..] == [] && [] + [First] == [First];
    assert Admit(c, s, [], []) == Admit(c, s1, [First], []) == Done((s1, [First], []));
  }

  lemma PromptBlocks(c: Config, seqs: map<SeqId, Sequence>, i: SeqId, len: nat)
    requires c.blockSize > 0 && Len(seqs, i) == len
    ensures TotalLogicalBlocks(c, seqs, [i]) == CeilDiv(len, c.blockSize)
  {
    assert [i][1..] == [];
    assert TotalLogicalBlocks(c, seqs, [i]) ==
           LogicalBlocks(c.blockSize, Len(seqs, [i][0])) + TotalLogicalBlocks(c, seqs, [i][1..]);
  }

  lemma AllFreeAtStart(c: Config, numCpuBlocks: nat)
    ensures |NewPools(c.numGpuBlocks, numCpuBlocks).gpuFree| == c.numGpuBlocks
  {
  }

  lemma ConsistentStart(c: Config, numCpuBlocks: nat)
    ensures Consistent(Engine(NewPools(c.numGpuBlocks, numCpuBlocks), map[]))
  {
    NewPoolsAccounted(c.numGpuBlocks, numCpuBlocks);
  }

  lemma PromptSampled(c: Config, numCpuBlocks: nat, len: nat) returns (e: Engine)
    requires FullPrompt(c, len)
    ensures e.tables.Keys == {0} && |e.tables[0]| == CeilDiv(len, c.blockSize)
    ensures var w := Request(Start(c, numCpuBlocks), len, 0);
            && Iterate(c, w, {}).Done? && Iterate(c, w, {}).value.state == AfterOne(e, len)
            && Iterate(c, w, {}).value.own == map[0 := 0]
  {
    hide Schedule, GenerationOk, NewPools;
    e := PromptAdmitted(c, numCpuBlocks, len);
    var w := Request(Start(c, numCpuBlocks), len, 0);
    var (s, out) := Schedule(c, w.state).value;
    AdmittedLookup(c.blockSize, len);
    assert forall i :: InBatch([First], i) <==> i == 0 by { assert First in [First] && 0 in First.seqs; }
    assert Sampled(s.seqs, [First], {}) == map[0 := Sequence(len + 1, Running)];
    var s1 := s.(seqs := map[0 := Sequence(len + 1, Running)]);
    assert !GroupFinished(s1.seqs, First) by { assert 0 in First.seqs; }
    assert [First][1..] == [] && [First] + [] == [First];
    assert FreeFinishedGroups(s1.engine, s1.seqs, [First]) == FreeFinishedGroups(s1.engine, s1.seqs, []);
    assert Unfinished(s1.seqs, [First]) == [First] + Unfinished(s1.seqs, []);
    assert FreeFinished(s1) == Done(s1);
  }

  /** In every engine with blocks of more than one token, such a prompt makes the second iteration panic. */
  lemma LookupPastTable(c: Config, numCpuBlocks: nat, len: nat, stop: set<SeqId>)
    requires FullPrompt(c, len)
    ensures Generate(c, numCpuBlocks, [Prompt(len, 0), Iteration({})]).Done?
    ensures Generate(c, numCpuBlocks, [Prompt(len, 0), Iteration({}), Iteration(stop)]).Panic?
  {
    hide Generate, Iterate, Request, Start, GenerationOk, Decode;
    StartWorld(c, numCpuBlocks, len);
    var e := PromptSampled(c, numCpuBlocks, len);
    var w := Iterate(c, Request(Start(c, numCpuBlocks), len, 0), {}).value;
    var steps := [Prompt(len, 0), Iteration({})];
    RunParts(c, numCpuBlocks, len, stop);
    GenerateOk(c, numCpuBlocks, steps);
    SecondReady(c, numCpuBlocks, w, History(c, numCpuBlocks, steps), e, len);
    SecondPanics(c, numCpuBlocks, w, e, len, stop);
  }

  lemma RunParts(c: Config, numCpuBlocks: nat, len: nat, stop: set<SeqId>)
    requires Generate(c, numCpuBlocks, [Prompt(len, 0)]).Done?
    requires Iterate(c, Generate(c, numCpuBlocks, [Prompt(len, 0)]).value, {}).Done?
    ensures var w := Iterate(c, Generate(c, numCpuBlocks, [Prompt(len, 0)]).value, {}).value;
            && Generate(c, numCpuBlocks, [Prompt(len, 0), Iteration({})]) == Done(w)
            && (Iterate(c, w, stop).Panic? ==>
                  Generate(c, numCpuBlocks, [Prompt(len, 0), Iteration({}), Iteration(stop)]).Panic?)
  {
    hide Iterate;
    assert [Prompt(len, 0), Iteration({})][..1] == [Prompt(len, 0)];
    assert [Prompt(len, 0), Iteration({}), Iteration(stop)][..2] == [Prompt(len, 0), Iteration({})];
  }

  lemma SecondReady(c: Config, numCpuBlocks: nat, w: World, admitted: map<SeqId, nat>, e: Engine, len: nat)
    requires FullPrompt(c, len) && GenerationOk(c, numCpuBlocks, w, admitted) && w.state == AfterOne(e, len)
    requires e.tables.Keys == {0} && |e.tables[0]| == CeilDiv(len, c.blockSize)
    ensures GenerationOk(c, numCpuBlocks, w, map[0 := len])
  {
    hide WorldOk;
    AdmittedLookup(c.blockSize, len);
  }

  lemma SecondPanics(c: Config, numCpuBlocks: nat, w: World, e: Engine, len: nat, stop: set<SeqId>)
    requires FullPrompt(c, len) && GenerationOk(c, numCpuBlocks, w, map[0 := len]) && w.state == AfterOne(e, len)
    ensures Iterate(c, w, stop).Panic?
  {
    hide Iterate, Decode, WorldOk, Exclusive, SchedulerOk, Lengths, NoEmptyTable, CanAppend, LatestFirst;
    var s := w.state;
    TablesNotEmpty(c, numCpuBlocks, w, map[0 := len]);
    WorldParts(c, numCpuBlocks, w);
    IteratePanicsIff(c, numCpuBlocks, w, map[0 := len], stop);
    DecodeSingle(c, w.own, s);
    DecodeOrder(c, s);
    LatestFirstDescending(s.running);
    var s' := Decode(c, s).value.0;
    if s'.running != [] {
      assert s'.running[0] in LatestFirst(s.running);
      assert s'.running[0] == First && First in s'.running;
      assert 0 in s'.engine.tables by { FirstHasTable(w.own, s'); }
      NextIsNoMultiple(len, c.blockSize);
      assert PastTable(c, s, map[0 := len], 0);
    }
  }

  lemma NextIsNoMultiple(len: nat, size: nat)
    requires size > 1 && len % size == 0
    ensures (len + 1) % size == 1
  {
    RemainderShift(len, size, 1);
  }

  lemma FirstHasTable(own: Owner, s: State)
    requires SchedulerOk(own, s) && First in s.running
    ensures 0 in s.engine.tables
  {
    assert 0 in First.seqs;
    assert InBatch(s.running, 0);
    BatchHasTable(own, s, 0);
  }

  // ----- Tokens

  /** The first token of a prompt finds no block to append to. */
  lemma FirstTokenPanics()
    ensures Sequences.AppendAllAsWritten(16, [], [7]).Panic?
  {
  }
}
