/**
 What the GPU cache holds through a run of the generation loop. A cell is named by its slot and holds what was last
 written to it, keys and values of one position. An iteration writes all positions of its batch if the front sequence
 has no output yet, and the last position of each sequence otherwise.
 */
module CacheRuns {
  import opened Outcomes
  import opened Arithmetic
  import opened Pools
  import opened Engine
  import opened AppendLaws
  import opened StepInvariant
  import opened Scheduler
  import opened ScheduleSafety
  import opened ScheduleTheorem
  import opened QueueOrder
  import opened SingleSequence
  import opened Admission
  import opened Runs
  import opened Generation
  import opened RunHistory
  import opened Slots

  // ----- Slots of a batch

  /** Between steps of a run: one-sequence groups, nothing shared, everything on the GPU. */
  ghost predicate Flat(own: Owner, s: State) {
    SchedulerOk(own, s) && AllSingle(s.running) && s.swappedOut == [] && Exclusive(s.engine.tables)
  }

  /** The slots of all positions of all tables are distinct and in range. */
  lemma SlotsApart(c: Config, own: Owner, s: State, i: SeqId, pos: nat, j: SeqId, pos': nat)
    requires Flat(own, s) && PoolBounded(c, s.engine) && c.blockSize > 0 && i in s.engine.tables && j in s.engine.tables
    requires pos / c.blockSize < |s.engine.tables[i]| && pos' / c.blockSize < |s.engine.tables[j]|
    ensures Slot(c.blockSize, s.engine.tables[i], pos) < c.numGpuBlocks * c.blockSize
    ensures Slot(c.blockSize, s.engine.tables[i], pos) == Slot(c.blockSize, s.engine.tables[j], pos') <==>
            i == j && pos == pos'
  {
    hide NoSharing, QueuesOk, FreeListOk, References;
    var size := c.blockSize;
    var k, l := pos / size, pos' / size;
    var b, d := s.engine.tables[i][k], s.engine.tables[j][l];
    TableBlockLive(s.engine, i, b);
    TableBlockLive(s.engine, j, d);
    assert Ids(s.swappedOut) == {};
    assert b.dev.Gpu? && d.dev.Gpu?;
    if b == d && (i != j || k != l) {
      CountedOnceIsExclusive(s.engine, i, k, j, l);
      CountIs(s.engine, b);
    }
    SameSlotIff(size, s.engine.tables[i], pos, s.engine.tables[j], pos');
    SamePartsSame(pos, pos', size);
    SlotInRange(size, b.id, pos % size, c.numGpuBlocks);
  }

  lemma ScheduledFlat(c: Config, numCpuBlocks: nat, w: World, admitted: map<SeqId, nat>)
    requires GenerationOk(c, numCpuBlocks, w, admitted) && Schedule(c, w.state).Done?
    ensures Flat(w.own, Schedule(c, w.state).value.0) && PoolBounded(c, Schedule(c, w.state).value.0.engine)
  {
    hide Schedule, SchedulerOk, Exclusive, AllSingle, NewPools, NumSeqs, Numbered;
    ScheduleEventOk(c, numCpuBlocks, w);
    var w1 := w.(state := Schedule(c, w.state).value.0);
    WorldParts(c, numCpuBlocks, w1);
    BoundedStart(c, numCpuBlocks, w1.state.engine);
  }

  /**
   After every admission of every run: each position of an admitted sequence has a table entry, and its slot is in
   range and the slot of no other position of any table. So `prepare_prompt` finds all its slots, and they do not meet.
   */
  lemma PromptSlots(c: Config, numCpuBlocks: nat, steps: seq<Step>, i: SeqId, pos: nat, j: SeqId, pos': nat)
    requires IsRun(c, numCpuBlocks, steps) && Schedule(c, Generate(c, numCpuBlocks, steps).value.state).Done?
    requires InBatch(AdmittedBatch(c, Generate(c, numCpuBlocks, steps).value.state), i)
    requires var s := Schedule(c, Generate(c, numCpuBlocks, steps).value.state).value.0;
             && pos < Len(s.seqs, i) && j in s.engine.tables && pos' / c.blockSize < |s.engine.tables[j]|
    ensures var s := Schedule(c, Generate(c, numCpuBlocks, steps).value.state).value.0;
            && i in s.engine.tables && pos / c.blockSize < |s.engine.tables[i]|
            && Slot(c.blockSize, s.engine.tables[i], pos) < c.numGpuBlocks * c.blockSize
            && (Slot(c.blockSize, s.engine.tables[i], pos) == Slot(c.blockSize, s.engine.tables[j], pos') <==>
                i == j && pos == pos')
  {
    hide Generate, Schedule, AdmittedBatch, InBatch, Flat, PoolBounded, Slot, GenerationOk;
    GenerateOk(c, numCpuBlocks, steps);
    var w, admitted := Generate(c, numCpuBlocks, steps).value, History(c, numCpuBlocks, steps);
    ScheduledFlat(c, numCpuBlocks, w, admitted);
    AdmittedPositions(c, numCpuBlocks, w, admitted, i, pos);
    SlotsApart(c, w.own, Schedule(c, w.state).value.0, i, pos, j, pos');
  }

  lemma AdmittedPositions(c: Config, numCpuBlocks: nat, w: World, admitted: map<SeqId, nat>, i: SeqId, pos: nat)
    requires GenerationOk(c, numCpuBlocks, w, admitted) && Schedule(c, w.state).Done?
    requires InBatch(AdmittedBatch(c, w.state), i) && pos < Len(Schedule(c, w.state).value.0.seqs, i)
    ensures c.blockSize > 0 && i in Schedule(c, w.state).value.0.engine.tables
    ensures pos / c.blockSize < |Schedule(c, w.state).value.0.engine.tables[i]|
  {
    hide Admit, WorldOk, SchedulerOk, PoolBounded, InBatch, Exclusive, AllSingle;
    TablesNotEmpty(c, numCpuBlocks, w, admitted);
    WorldParts(c, numCpuBlocks, w);
    AdmitSafe(c, w.own, w.state, [], []);
    AdmitSingle(c, w.own, w.state, [], []);
    var (s1, scheduled, _) := Admit(c, w.state, [], []).value;
    assert scheduled[0..] == scheduled;
    NotEmptyBatch(scheduled, i);
    AdmittedLookups(c, w.own, w.state, s1, scheduled);
    DivMonotone(pos, Len(s1.seqs, i) - 1, c.blockSize);
  }

  lemma NotEmptyBatch(batch: seq<Group>, i: SeqId)
    requires InBatch(batch, i)
    ensures batch != []
  {
  }

  // ----- What an iteration writes

  /** What each slot holds. */
  type Cells<!D> = nat -> D

  /** What the model last computed for each position of each sequence. */
  type Data<!D> = (SeqId, nat) -> D

  /** `is_prompt` of the front sequence: it has no output yet. */
  ghost predicate PromptPath(lens: seq<nat>, s: State, batch: seq<Group>) {
    && batch != [] && batch[0].seqs != []
    && batch[0].seqs[0] < |lens| && Len(s.seqs, batch[0].seqs[0]) == lens[batch[0].seqs[0]]
  }

  /** The iteration writes position `pos` of sequence `i`. */
  ghost predicate Writes(s: State, batch: seq<Group>, prompt: bool, i: SeqId, pos: nat) {
    InBatch(batch, i) && pos < Len(s.seqs, i) && (prompt || pos == Len(s.seqs, i) - 1)
  }

  /** The cells before and after the writes of an iteration, which computes `d'` for the positions it writes. */
  ghost predicate Wrote<D(!new)>(c: Config, s: State, batch: seq<Group>, prompt: bool, d': Data<D>, m: Cells<D>,
                                 m': Cells<D>) {
    && c.blockSize > 0
    && (forall i, pos: nat :: Writes(s, batch, prompt, i, pos) ==>
          && i in s.engine.tables && pos / c.blockSize < |s.engine.tables[i]|
          && m'(Slot(c.blockSize, s.engine.tables[i], pos)) == d'(i, pos))
    && (forall slot: nat :: slot < c.numGpuBlocks * c.blockSize && Untouched(c, s, batch, prompt, slot) ==>
          m'(slot) == m(slot))
  }

  /** Only positions that are written are computed anew. */
  ghost predicate Computed<D(!new)>(s: State, batch: seq<Group>, prompt: bool, d: Data<D>, d': Data<D>) {
    forall i, pos: nat :: !Writes(s, batch, prompt, i, pos) ==> d'(i, pos) == d(i, pos)
  }

  ghost predicate Untouched(c: Config, s: State, batch: seq<Group>, prompt: bool, slot: nat) {
    forall i, pos: nat ::
      (&& Writes(s, batch, prompt, i, pos) && c.blockSize > 0
       && i in s.engine.tables && pos / c.blockSize < |s.engine.tables[i]|) ==>
        Slot(c.blockSize, s.engine.tables[i], pos) != slot
  }

  /** The cells through a run: requests write nothing, an iteration writes what its batch and path say. */
  ghost predicate CacheRun<D(!new)>(c: Config, numCpuBlocks: nat, steps: seq<Step>, ds: seq<Data<D>>, ms: seq<Cells<D>>)
    decreases |steps|
  {
    && |ms| == |ds| == |steps| + 1
    && (steps != [] ==>
          var n := |steps| - 1;
          && CacheRun(c, numCpuBlocks, steps[..n], ds[..n + 1], ms[..n + 1])
          && (steps[n].Prompt? ==> ms[n + 1] == ms[n] && ds[n + 1] == ds[n])
          && (steps[n].Iteration? ==>
                var w := Generate(c, numCpuBlocks, steps[..n]);
                && w.Done? && Schedule(c, w.value.state).Done?
                && Forwarded(c, PromptLens(steps), w.value.state, ds[n], ds[n + 1], ms[n], ms[n + 1])))
  }

  /** One iteration's computation and writes. */
  ghost predicate Forwarded<D(!new)>(c: Config, lens: seq<nat>, before: State, d: Data<D>, d': Data<D>, m: Cells<D>,
                                     m': Cells<D>)
    requires Schedule(c, before).Done?
  {
    var (s, out) := Schedule(c, before).value;
    var prompt := PromptPath(lens, s, out.scheduled);
    Computed(s, out.scheduled, prompt, d, d') && Wrote(c, s, out.scheduled, prompt, d', m, m')
  }

  // ----- Which positions have been written

  /** Whether the last admission of each sequence took the prompt path. */
  ghost function Filled(c: Config, numCpuBlocks: nat, steps: seq<Step>): map<SeqId, bool>
    decreases |steps|
  {
    if steps == [] then map[]
    else
      var n := |steps| - 1;
      var before := Filled(c, numCpuBlocks, steps[..n]);
      var w := Generate(c, numCpuBlocks, steps[..n]);
      if steps[n].Prompt? || w.Panic? then before
      else
        var batch := AdmittedBatch(c, w.value.state);
        map i | i in before.Keys + w.value.state.seqs.Keys && (i in before || InBatch(batch, i)) ::
          if InBatch(batch, i) then PromptPath(PromptLens(steps), w.value.state, batch) else before[i]
  }

  /** The positions of `i` written since its last admission. */
  ghost function Written(c: Config, numCpuBlocks: nat, steps: seq<Step>, i: SeqId): iset<nat>
    decreases |steps|
  {
    if steps == [] then iset{}
    else
      var n := |steps| - 1;
      var before := Written(c, numCpuBlocks, steps[..n], i);
      var w := Generate(c, numCpuBlocks, steps[..n]);
      if steps[n].Prompt? || w.Panic? || Schedule(c, w.value.state).Panic? then before
      else
        var (s, out) := Schedule(c, w.value.state).value;
        var now := iset pos: nat | Writes(s, out.scheduled, PromptPath(PromptLens(steps), s, out.scheduled), i, pos);
        if InBatch(AdmittedBatch(c, w.value.state), i) then now else before + now
  }

  /** The first position written since the last admission. */
  ghost function From(c: Config, numCpuBlocks: nat, steps: seq<Step>, i: SeqId): int {
    var filled, admitted := Filled(c, numCpuBlocks, steps), History(c, numCpuBlocks, steps);
    if i in filled && filled[i] then 0 else if i in admitted then admitted[i] as int - 1 else 0
  }

  // ----- One iteration

  /** What one iteration does to the tables and lengths of the sequences that have a table after it. */
  ghost predicate Iterated(c: Config, w: World, w': World) {
    && Schedule(c, w.state).Done?
    && var (s, out) := Schedule(c, w.state).value;
    && c.blockSize > 0
    && (forall i :: Len(s.seqs, i) == Len(w.state.seqs, i))
    && (forall i :: InBatch(out.scheduled, i) ==> LookupOk(c, s, i))
    && (forall i :: i in w'.state.engine.tables ==>
          && i in s.engine.tables && w'.state.engine.tables[i] == s.engine.tables[i]
          && Len(w'.state.seqs, i) == Len(s.seqs, i) + (if InBatch(out.scheduled, i) then 1 else 0)
          && (!InBatch(AdmittedBatch(c, w.state), i) ==>
                i in w.state.engine.tables && w.state.engine.tables[i] <= s.engine.tables[i])
          && (AdmittedBatch(c, w.state) == [] ==> InBatch(out.scheduled, i)))
    && (AdmittedBatch(c, w.state) != [] ==> out.scheduled == AdmittedBatch(c, w.state))
    && (AdmittedBatch(c, w.state) == [] ==> out.scheduled != [] && out.scheduled == s.running)
  }

  lemma IterationFacts(c: Config, numCpuBlocks: nat, w: World, admitted: map<SeqId, nat>, stop: set<SeqId>)
    requires GenerationOk(c, numCpuBlocks, w, admitted) && Iterate(c, w, stop).Done?
    ensures Iterated(c, w, Iterate(c, w, stop).value)
  {
    hide WorldOk, Schedule, AdmittedBatch, LengthsOk, ReadyToSample, LookupOk, InBatch, Unfinished, FreeFinished, Next,
         Sampled;
    var (s, out) := Schedule(c, w.state).value;
    ScheduleReady(c, numCpuBlocks, w, admitted);
    AfterSchedule(c, numCpuBlocks, w, admitted);
    AfterClean(c, numCpuBlocks, w, stop);
  }

  lemma AfterSchedule(c: Config, numCpuBlocks: nat, w: World, admitted: map<SeqId, nat>)
    requires GenerationOk(c, numCpuBlocks, w, admitted) && Schedule(c, w.state).Done?
    ensures var (s, out) := Schedule(c, w.state).value;
            var batch := AdmittedBatch(c, w.state);
            && (batch != [] ==> out.scheduled == batch) && (batch == [] ==> out.scheduled == s.running)
            && (forall i :: i in s.engine.tables ==>
                  && (!InBatch(batch, i) ==>
                        i in w.state.engine.tables && w.state.engine.tables[i] <= s.engine.tables[i])
                  && (batch == [] ==> InBatch(out.scheduled, i)))
  {
    hide WorldOk, Admit, Decode, SchedulerOk, InBatch, PoolBounded, Exclusive, NoEmptyTable;
    WorldParts(c, numCpuBlocks, w);
    TablesNotEmpty(c, numCpuBlocks, w, admitted);
    AdmitSafe(c, w.own, w.state, [], []);
    var (s1, scheduled, ignored) := Admit(c, w.state, [], []).value;
    assert scheduled[0..] == scheduled;
    var s := Schedule(c, w.state).value.0;
    if scheduled != [] {
      forall i | i in s.engine.tables && !InBatch(scheduled, i)
        ensures i in w.state.engine.tables && w.state.engine.tables[i] <= s.engine.tables[i]
      {
        OldTable(w.own, w.state, s1, scheduled, i);
      }
    } else {
      NothingAdmitted(c, w.state);
      DecodeSingle(c, w.own, w.state);
      forall i | i in s.engine.tables ensures InBatch(s.running, i) {
        TableInBatch(w.own, s, i);
      }
    }
  }

  lemma AfterClean(c: Config, numCpuBlocks: nat, w: World, stop: set<SeqId>)
    requires WorldOk(c, numCpuBlocks, w) && Iterate(c, w, stop).Done?
    ensures var (s, out) := Schedule(c, w.state).value;
            var w' := Iterate(c, w, stop).value;
            forall i :: i in w'.state.engine.tables ==>
              && i in s.engine.tables && w'.state.engine.tables[i] == s.engine.tables[i]
              && Len(w'.state.seqs, i) == Len(s.seqs, i) + (if InBatch(out.scheduled, i) then 1 else 0)
  {
    hide WorldOk, Schedule, LookupOk, InBatch, Unfinished;
    var (s, out) := Schedule(c, w.state).value;
    ScheduleEventOk(c, numCpuBlocks, w);
    var w1 := w.(state := s);
    var seqs' := Sampled(s.seqs, out.scheduled, stop);
    TokensOk(c, numCpuBlocks, w1, seqs');
    var w2 := w1.(state := s.(seqs := seqs'));
    FreeFinishedOk(c, numCpuBlocks, w2);
    var w' := Next(c, w2, CleanUp).value;
    assert w'.state.seqs == seqs' && w'.state.running == Unfinished(seqs', s.running);
    WorldParts(c, numCpuBlocks, w2);
    WorldParts(c, numCpuBlocks, w');
    CleanUpTables(c, numCpuBlocks, w2);
    KnownTables(w2.own, w2.state);
    forall i | i in w'.state.engine.tables ensures !(InBatch(out.scheduled, i) && i in stop) {
      if InBatch(out.scheduled, i) && i in stop {
        StoppedIsFreed(w.own, s, out.scheduled, stop, s.running, w'.state, i);
      }
    }
  }

  // ----- Every run

  /** Sequences are at least as long as their prompts, also when they were admitted. */
  lemma {:induction false} AtLeastPrompt(c: Config, numCpuBlocks: nat, steps: seq<Step>, i: SeqId)
    requires IsRun(c, numCpuBlocks, steps) && i < |PromptLens(steps)|
    ensures Len(Generate(c, numCpuBlocks, steps).value.state.seqs, i) >= PromptLens(steps)[i]
    ensures i in History(c, numCpuBlocks, steps) ==> History(c, numCpuBlocks, steps)[i] >= PromptLens(steps)[i]
    decreases |steps|
  {
    hide GenerationOk, AdmittedBatch, InBatch, Iterate;
    var n := |steps| - 1;
    var init := steps[..n];
    Shorter(c, numCpuBlocks, steps);
    AdmittedOnce(c, numCpuBlocks, init, i);
    var w := Generate(c, numCpuBlocks, init).value;
    if i < |PromptLens(init)| {
      AtLeastPrompt(c, numCpuBlocks, init, i);
      if steps[n].Iteration? {
        GenerateOk(c, numCpuBlocks, init);
        LensGrow(c, numCpuBlocks, w, History(c, numCpuBlocks, init), steps[n].stop, i);
        assert PromptLens(steps) == PromptLens(init);
      }
    } else {
      NotYetAdmitted(c, numCpuBlocks, init, i);
    }
  }

  lemma LensGrow(c: Config, numCpuBlocks: nat, w: World, admitted: map<SeqId, nat>, stop: set<SeqId>, i: SeqId)
    requires GenerationOk(c, numCpuBlocks, w, admitted) && Iterate(c, w, stop).Done?
    ensures Len(Iterate(c, w, stop).value.state.seqs, i) >= Len(w.state.seqs, i)
  {
    hide Schedule, GenerationOk, InBatch, LookupOk, ReadyToSample, FreeFinishedGroups, Unfinished;
    ScheduleReady(c, numCpuBlocks, w, admitted);
  }

  /** A sequence with a table has produced a token, so it is not at its prompt. */
  lemma PastPrompt(c: Config, numCpuBlocks: nat, steps: seq<Step>, i: SeqId)
    requires IsRun(c, numCpuBlocks, steps) && i in Generate(c, numCpuBlocks, steps).value.state.engine.tables
    ensures i < |PromptLens(steps)| && Len(Generate(c, numCpuBlocks, steps).value.state.seqs, i) > PromptLens(steps)[i]
  {
    hide Generate, History, SchedulerOk, WorldOk;
    GenerateOk(c, numCpuBlocks, steps);
    var w, admitted := Generate(c, numCpuBlocks, steps).value, History(c, numCpuBlocks, steps);
    GenerationParts(c, numCpuBlocks, w, admitted);
    OwnedTables(w.own, w.state);
    AdmittedOnce(c, numCpuBlocks, steps, i);
    AtLeastPrompt(c, numCpuBlocks, steps, i);
  }

  /**
   What is known of a sequence with this table and length: the positions written since its last admission are those from
   `first` on but the last; all but the last have an entry; and the cells of the written ones hold them.
   */
  ghost predicate Holds<D(!new)>(size: nat, table: Table, len: nat, written: iset<nat>, first: int, d: Data<D>,
                                 m: Cells<D>, i: SeqId) {
    && size > 0 && first < len
    && (forall pos: nat :: pos in written <==> first <= pos < len - 1)
    && (forall pos: nat :: pos < len - 1 ==> pos / size < |table|)
    && (forall pos: nat :: pos in written && pos / size < |table| ==> m(Slot(size, table, pos)) == d(i, pos))
  }

  ghost predicate HoldsAfter<D(!new)>(c: Config, numCpuBlocks: nat, steps: seq<Step>, s: State, d: Data<D>,
                                      m: Cells<D>, i: SeqId) {
    && i in s.engine.tables
    && Holds(c.blockSize, s.engine.tables[i], Len(s.seqs, i), Written(c, numCpuBlocks, steps, i),
             From(c, numCpuBlocks, steps, i), d, m, i)
  }

  /** In every state of every run. */
  lemma {:induction false} CacheHolds<D(!new)>(c: Config, numCpuBlocks: nat, steps: seq<Step>, ds: seq<Data<D>>,
                                               ms: seq<Cells<D>>, i: SeqId)
    requires IsRun(c, numCpuBlocks, steps) && CacheRun(c, numCpuBlocks, steps, ds, ms)
    requires i in Generate(c, numCpuBlocks, steps).value.state.engine.tables
    ensures HoldsAfter(c, numCpuBlocks, steps, Generate(c, numCpuBlocks, steps).value.state,
                       ds[|steps|], ms[|steps|], i)
    decreases |steps|
  {
    hide Generate, GenerationOk, HoldsAfter, Forwarded, Filled, Written, From, PromptPath, Schedule;
    if steps == [] {
      assert Generate(c, numCpuBlocks, []).value.state.engine.tables == map[] by { EmptyRun(c, numCpuBlocks); }
    } else {
      var n := |steps| - 1;
      var init := steps[..n];
      Shorter(c, numCpuBlocks, steps);
      if i in Generate(c, numCpuBlocks, init).value.state.engine.tables {
        CacheHolds(c, numCpuBlocks, init, ds[..n + 1], ms[..n + 1], i);
        assert ms[..n + 1][n] == ms[n] && ds[..n + 1][n] == ds[n];
      }
      if steps[n].Prompt? {
        HoldsAfterPrompt(c, numCpuBlocks, steps, ds[n], ms[n], i);
      } else {
        HoldsAfterIteration(c, numCpuBlocks, steps, ds[n], ds[n + 1], ms[n], ms[n + 1], i);
      }
    }
  }

  lemma EmptyRun(c: Config, numCpuBlocks: nat)
    ensures Generate(c, numCpuBlocks, []).value.state.engine.tables == map[]
  {
  }

  lemma SameRecords(c: Config, numCpuBlocks: nat, steps: seq<Step>, i: SeqId)
    requires steps != [] && steps[|steps| - 1].Prompt?
    ensures Written(c, numCpuBlocks, steps, i) == Written(c, numCpuBlocks, steps[..|steps| - 1], i)
    ensures From(c, numCpuBlocks, steps, i) == From(c, numCpuBlocks, steps[..|steps| - 1], i)
  {
    hide Generate, Schedule, AdmittedBatch, InBatch, PromptPath;
  }

  lemma HoldsAfterPrompt<D(!new)>(c: Config, numCpuBlocks: nat, steps: seq<Step>, d: Data<D>, m: Cells<D>, i: SeqId)
    requires IsRun(c, numCpuBlocks, steps) && steps != [] && steps[|steps| - 1].Prompt?
    requires i in Generate(c, numCpuBlocks, steps).value.state.engine.tables
    requires var w := Generate(c, numCpuBlocks, steps[..|steps| - 1]);
             && w.Done? && IsRun(c, numCpuBlocks, steps[..|steps| - 1])
             && (i in w.value.state.engine.tables ==>
                   HoldsAfter(c, numCpuBlocks, steps[..|steps| - 1], w.value.state, d, m, i))
    ensures HoldsAfter(c, numCpuBlocks, steps, Generate(c, numCpuBlocks, steps).value.state, d, m, i)
  {
    hide GenerationOk, SchedulerOk, Holds, Written, From, History, Iterate;
    var n := |steps| - 1;
    var init := steps[..n];
    var w := Generate(c, numCpuBlocks, init).value;
    SameRecords(c, numCpuBlocks, steps, i);
    GenerateOk(c, numCpuBlocks, init);
    GenerationParts(c, numCpuBlocks, w, History(c, numCpuBlocks, init));
    OwnedTables(w.own, w.state);
    assert Generate(c, numCpuBlocks, steps) == Done(Request(w, steps[n].len, steps[n].arrival));
    assert i < w.nextSeq;
  }

  /** What the iteration adds to the records. */
  lemma IterationRecords(c: Config, numCpuBlocks: nat, steps: seq<Step>, i: SeqId)
    requires IsRun(c, numCpuBlocks, steps) && steps != [] && steps[|steps| - 1].Iteration?
    requires var w := Generate(c, numCpuBlocks, steps[..|steps| - 1]);
             && w.Done? && Schedule(c, w.value.state).Done?
             && (InBatch(AdmittedBatch(c, w.value.state), i) ==> i in w.value.state.seqs)
             && (forall j :: Len(Schedule(c, w.value.state).value.0.seqs, j) == Len(w.value.state.seqs, j))
             && (AdmittedBatch(c, w.value.state) != [] ==>
                   Schedule(c, w.value.state).value.1.scheduled == AdmittedBatch(c, w.value.state))
    ensures var init := steps[..|steps| - 1];
            var w := Generate(c, numCpuBlocks, init).value;
            var (s, out) := Schedule(c, w.state).value;
            var prompt := PromptPath(PromptLens(steps), s, out.scheduled);
            var now := iset pos: nat | Writes(s, out.scheduled, prompt, i, pos);
            if InBatch(AdmittedBatch(c, w.state), i) then
              && Written(c, numCpuBlocks, steps, i) == now
              && From(c, numCpuBlocks, steps, i) == if prompt then 0 else Len(w.state.seqs, i) - 1
            else
              && Written(c, numCpuBlocks, steps, i) == Written(c, numCpuBlocks, init, i) + now
              && From(c, numCpuBlocks, steps, i) == From(c, numCpuBlocks, init, i)
  {
    hide Generate, Schedule, AdmittedBatch, InBatch, Writes;
    var w := Generate(c, numCpuBlocks, steps[..|steps| - 1]).value;
    if InBatch(AdmittedBatch(c, w.state), i) {
      NotEmptyBatch(AdmittedBatch(c, w.state), i);
    }
  }

  // ----- The cells after an iteration

  ghost function Now(s: State, batch: seq<Group>, prompt: bool, i: SeqId): iset<nat> {
    iset pos: nat | Writes(s, batch, prompt, i, pos)
  }

  /** A cell that holds its position still does after the writes. */
  lemma CellStays<D(!new)>(c: Config, own: Owner, s: State, batch: seq<Group>, prompt: bool, d: Data<D>, d': Data<D>,
                           m: Cells<D>, m': Cells<D>, i: SeqId, pos: nat)
    requires Flat(own, s) && PoolBounded(c, s.engine)
    requires Wrote(c, s, batch, prompt, d', m, m') && Computed(s, batch, prompt, d, d')
    requires i in s.engine.tables && pos / c.blockSize < |s.engine.tables[i]|
    requires m(Slot(c.blockSize, s.engine.tables[i], pos)) == d(i, pos)
    ensures m'(Slot(c.blockSize, s.engine.tables[i], pos)) == d'(i, pos)
  {
    hide Flat, PoolBounded, Slot, Writes;
    var slot := Slot(c.blockSize, s.engine.tables[i], pos);
    SlotsApart(c, own, s, i, pos, i, pos);
    if !Untouched(c, s, batch, prompt, slot) {
      var j, q: nat :| Writes(s, batch, prompt, j, q) && j in s.engine.tables && q / c.blockSize < |s.engine.tables[j]|
                       && Slot(c.blockSize, s.engine.tables[j], q) == slot;
      SlotsApart(c, own, s, i, pos, j, q);
    }
  }

  lemma EntriesBelow(c: Config, s: State, i: SeqId)
    requires LookupOk(c, s, i)
    ensures forall pos: nat :: pos < Len(s.seqs, i) ==> pos / c.blockSize < |s.engine.tables[i]|
  {
    forall pos: nat | pos < Len(s.seqs, i) ensures pos / c.blockSize < |s.engine.tables[i]| {
      DivMonotone(pos, Len(s.seqs, i) - 1, c.blockSize);
    }
  }

  lemma SamePrefixSlot(size: nat, table: Table, table': Table, pos: nat)
    requires size > 0 && table <= table' && pos / size < |table|
    ensures Slot(size, table, pos) == Slot(size, table', pos)
  {
  }

  /** An admitted sequence: only what is written now counts. */
  lemma Rewritten<D(!new)>(c: Config, s: State, batch: seq<Group>, prompt: bool, d': Data<D>, m: Cells<D>,
                           m': Cells<D>, i: SeqId)
    requires Wrote(c, s, batch, prompt, d', m, m') && InBatch(batch, i) && LookupOk(c, s, i)
    ensures Holds(c.blockSize, s.engine.tables[i], Len(s.seqs, i) + 1, Now(s, batch, prompt, i),
                  if prompt then 0 else Len(s.seqs, i) - 1, d', m', i)
  {
    hide Slot, InBatch, Untouched;
    EntriesBelow(c, s, i);
  }

  /** A sequence that runs on and is given one more position. */
  lemma Continued<D(!new)>(c: Config, own: Owner, s: State, batch: seq<Group>, d: Data<D>, d': Data<D>, m: Cells<D>,
                           m': Cells<D>, i: SeqId, table: Table, written: iset<nat>, first: int)
    requires Flat(own, s) && PoolBounded(c, s.engine) && InBatch(batch, i) && LookupOk(c, s, i)
    requires Wrote(c, s, batch, false, d', m, m') && Computed(s, batch, false, d, d')
    requires table <= s.engine.tables[i] && Holds(c.blockSize, table, Len(s.seqs, i), written, first, d, m, i)
    ensures Holds(c.blockSize, s.engine.tables[i], Len(s.seqs, i) + 1, written + Now(s, batch, false, i), first, d',
                  m', i)
  {
    hide Flat, PoolBounded, InBatch, Untouched;
    EntriesBelow(c, s, i);
    var last: nat := Len(s.seqs, i) - 1;
    var all := written + Now(s, batch, false, i);
    forall pos: nat | pos in all && pos / c.blockSize < |s.engine.tables[i]|
      ensures m'(Slot(c.blockSize, s.engine.tables[i], pos)) == d'(i, pos)
    {
      if pos != last {
        assert pos in written;
        SamePrefixSlot(c.blockSize, table, s.engine.tables[i], pos);
        CellStays(c, own, s, batch, false, d, d', m, m', i, pos);
      } else {
        assert Writes(s, batch, false, i, pos);
      }
    }
  }

  /** A sequence that is not in the batch. */
  lemma LeftAlone<D(!new)>(c: Config, own: Owner, s: State, batch: seq<Group>, prompt: bool, d: Data<D>, d': Data<D>,
                           m: Cells<D>, m': Cells<D>, i: SeqId, table: Table, written: iset<nat>, first: int)
    requires Flat(own, s) && PoolBounded(c, s.engine) && !InBatch(batch, i)
    requires Wrote(c, s, batch, prompt, d', m, m') && Computed(s, batch, prompt, d, d')
    requires i in s.engine.tables && table <= s.engine.tables[i]
    requires Holds(c.blockSize, table, Len(s.seqs, i), written, first, d, m, i)
    ensures Holds(c.blockSize, s.engine.tables[i], Len(s.seqs, i), written + Now(s, batch, prompt, i), first, d', m', i)
  {
    hide Flat, PoolBounded, InBatch, Wrote, Computed, Slot;
    assert written + Now(s, batch, prompt, i) == written;
    forall pos: nat | pos in written && pos / c.blockSize < |s.engine.tables[i]|
      ensures m'(Slot(c.blockSize, s.engine.tables[i], pos)) == d'(i, pos)
    {
      SamePrefixSlot(c.blockSize, table, s.engine.tables[i], pos);
      CellStays(c, own, s, batch, prompt, d, d', m, m', i, pos);
    }
  }

  /** In an iteration that admits nothing the front sequence has an output, so the decode path is taken. */
  lemma DecodePath(c: Config, numCpuBlocks: nat, init: seq<Step>, steps: seq<Step>, w': World)
    requires IsRun(c, numCpuBlocks, init) && PromptLens(steps) == PromptLens(init)
    requires Iterated(c, Generate(c, numCpuBlocks, init).value, w')
    requires AdmittedBatch(c, Generate(c, numCpuBlocks, init).value.state) == []
    requires Flat(Generate(c, numCpuBlocks, init).value.own,
                  Schedule(c, Generate(c, numCpuBlocks, init).value.state).value.0)
    ensures var (s, out) := Schedule(c, Generate(c, numCpuBlocks, init).value.state).value;
            !PromptPath(PromptLens(steps), s, out.scheduled)
  {
    hide Generate, Schedule, LookupOk, SchedulerOk, Exclusive, GenerationOk;
    var w := Generate(c, numCpuBlocks, init).value;
    var (s, out) := Schedule(c, w.state).value;
    var g := out.scheduled[0];
    assert g in s.running;
    if g.seqs != [] {
      var i := g.seqs[0];
      assert InBatch(s.running, i);
      GenerateOk(c, numCpuBlocks, init);
      AfterSchedule(c, numCpuBlocks, w, History(c, numCpuBlocks, init));
      BatchHasTable(w.own, s, i);
      PastPrompt(c, numCpuBlocks, init, i);
    }
  }

  lemma HoldsAfterIteration<D(!new)>(c: Config, numCpuBlocks: nat, steps: seq<Step>, d: Data<D>, d': Data<D>,
                                     m: Cells<D>, m': Cells<D>, i: SeqId)
    requires IsRun(c, numCpuBlocks, steps) && steps != [] && steps[|steps| - 1].Iteration?
    requires i in Generate(c, numCpuBlocks, steps).value.state.engine.tables
    requires var init := steps[..|steps| - 1];
             var w := Generate(c, numCpuBlocks, init);
             && w.Done? && IsRun(c, numCpuBlocks, init)
             && (i in w.value.state.engine.tables ==> HoldsAfter(c, numCpuBlocks, init, w.value.state, d, m, i))
             && Schedule(c, w.value.state).Done? && Forwarded(c, PromptLens(steps), w.value.state, d, d', m, m')
    ensures HoldsAfter(c, numCpuBlocks, steps, Generate(c, numCpuBlocks, steps).value.state, d', m', i)
  {
    hide Schedule, GenerationOk, Holds, Wrote, Computed, Filled, Written, From, PromptPath, History, AdmittedBatch,
         Flat, PoolBounded, LookupOk, InBatch, Iterate;
    var n := |steps| - 1;
    var init := steps[..n];
    var w, w' := Generate(c, numCpuBlocks, init).value, Generate(c, numCpuBlocks, steps).value;
    var admitted := History(c, numCpuBlocks, init);
    assert Iterate(c, w, steps[n].stop) == Done(w') by { LastStep(c, numCpuBlocks, steps); }
    hide Generate;
    RunIsOk(c, numCpuBlocks, init);
    IterationFacts(c, numCpuBlocks, w, admitted, steps[n].stop);
    ScheduledFlat(c, numCpuBlocks, w, admitted);
    var (s, out) := Schedule(c, w.state).value;
    var prompt := PromptPath(PromptLens(steps), s, out.scheduled);
    if InBatch(AdmittedBatch(c, w.state), i) {
      BatchKnown(c, numCpuBlocks, w, admitted, i);
    }
    IterationRecords(c, numCpuBlocks, steps, i);
    assert Now(s, out.scheduled, prompt, i) == iset pos: nat | Writes(s, out.scheduled, prompt, i, pos);
    if InBatch(AdmittedBatch(c, w.state), i) {
      NotEmptyBatch(AdmittedBatch(c, w.state), i);
      Rewritten(c, s, out.scheduled, prompt, d', m, m', i);
    } else {
      var written, first := Written(c, numCpuBlocks, init, i), From(c, numCpuBlocks, init, i);
      if InBatch(out.scheduled, i) {
        assert PromptLens(steps) == PromptLens(init);
        DecodePath(c, numCpuBlocks, init, steps, w');
        Continued(c, w.own, s, out.scheduled, d, d', m, m', i, w.state.engine.tables[i], written, first);
      } else {
        LeftAlone(c, w.own, s, out.scheduled, prompt, d, d', m, m', i, w.state.engine.tables[i], written, first);
      }
    }
  }

  lemma LastStep(c: Config, numCpuBlocks: nat, steps: seq<Step>)
    requires IsRun(c, numCpuBlocks, steps) && steps != [] && steps[|steps| - 1].Iteration?
    ensures Generate(c, numCpuBlocks, steps[..|steps| - 1]).Done?
    ensures Iterate(c, Generate(c, numCpuBlocks, steps[..|steps| - 1]).value, steps[|steps| - 1].stop)
            == Generate(c, numCpuBlocks, steps)
  {
    hide Iterate;
  }

  lemma RunIsOk(c: Config, numCpuBlocks: nat, steps: seq<Step>)
    requires IsRun(c, numCpuBlocks, steps)
    ensures Generate(c, numCpuBlocks, steps).Done?
    ensures GenerationOk(c, numCpuBlocks, Generate(c, numCpuBlocks, steps).value, History(c, numCpuBlocks, steps))
  {
    hide GenerationOk, Generate;
    GenerateOk(c, numCpuBlocks, steps);
  }

  // ----- Every run has such cells

  ghost predicate Hits(c: Config, s: State, batch: seq<Group>, prompt: bool, slot: nat, i: SeqId, pos: nat) {
    && Writes(s, batch, prompt, i, pos) && c.blockSize > 0 && i in s.engine.tables
    && pos / c.blockSize < |s.engine.tables[i]| && Slot(c.blockSize, s.engine.tables[i], pos) == slot
  }

  /** What is in a slot after the writes. */
  ghost function After<D(!new)>(c: Config, s: State, batch: seq<Group>, prompt: bool, d': Data<D>, m: Cells<D>,
                                slot: nat): D {
    if at: (SeqId, nat) :| Hits(c, s, batch, prompt, slot, at.0, at.1) then d'(at.0, at.1) else m(slot)
  }

  lemma WritesPossible<D(!new)>(c: Config, own: Owner, s: State, batch: seq<Group>, prompt: bool, d': Data<D>,
                                m: Cells<D>)
    returns (m': Cells<D>)
    requires Flat(own, s) && PoolBounded(c, s.engine) && c.blockSize > 0
    requires forall i :: InBatch(batch, i) ==> LookupOk(c, s, i)
    ensures Wrote(c, s, batch, prompt, d', m, m')
  {
    hide Flat, PoolBounded, Slot, InBatch;
    m' := (slot: nat) => After(c, s, batch, prompt, d', m, slot);
    forall i, pos: nat | Writes(s, batch, prompt, i, pos)
      ensures i in s.engine.tables && pos / c.blockSize < |s.engine.tables[i]|
      ensures m'(Slot(c.blockSize, s.engine.tables[i], pos)) == d'(i, pos)
    {
      EntriesBelow(c, s, i);
      var slot := Slot(c.blockSize, s.engine.tables[i], pos);
      assert Hits(c, s, batch, prompt, slot, (i, pos).0, (i, pos).1);
      forall at: (SeqId, nat) | Hits(c, s, batch, prompt, slot, at.0, at.1) ensures at == (i, pos) {
        SlotsApart(c, own, s, i, pos, at.0, at.1);
      }
    }
  }

  /** The written positions get what the model computed in this iteration. */
  ghost predicate Takes<D(!new)>(c: Config, lens: seq<nat>, before: State, computed: Data<D>, d': Data<D>)
    requires Schedule(c, before).Done?
  {
    var (s, out) := Schedule(c, before).value;
    forall i, pos: nat :: Writes(s, out.scheduled, PromptPath(lens, s, out.scheduled), i, pos) ==>
      d'(i, pos) == computed(i, pos)
  }

  ghost predicate TakesAll<D(!new)>(c: Config, numCpuBlocks: nat, steps: seq<Step>, computed: seq<Data<D>>,
                                    ds: seq<Data<D>>)
    decreases |steps|
  {
    && |computed| == |steps| && |ds| == |steps| + 1
    && (steps != [] ==>
          var n := |steps| - 1;
          && TakesAll(c, numCpuBlocks, steps[..n], computed[..n], ds[..n + 1])
          && (steps[n].Iteration? ==>
                var w := Generate(c, numCpuBlocks, steps[..n]);
                w.Done? && Schedule(c, w.value.state).Done?
                && Takes(c, PromptLens(steps), w.value.state, computed[n], ds[n + 1])))
  }

  /** For whatever the model computes in each step, and whatever the caches hold at first. */
  lemma {:induction false} RunHasCells<D(!new)>(c: Config, numCpuBlocks: nat, steps: seq<Step>, d0: Data<D>,
                                                m0: Cells<D>, computed: seq<Data<D>>)
    returns (ds: seq<Data<D>>, ms: seq<Cells<D>>)
    requires IsRun(c, numCpuBlocks, steps) && |computed| == |steps|
    ensures CacheRun(c, numCpuBlocks, steps, ds, ms) && TakesAll(c, numCpuBlocks, steps, computed, ds)
    ensures ds[0] == d0 && ms[0] == m0
    decreases |steps|
  {
    hide Generate, Schedule, GenerationOk, Forwarded, Takes, PromptLens;
    if steps == [] {
      ds, ms := [d0], [m0];
    } else {
      var n := |steps| - 1;
      var init := steps[..n];
      Shorter(c, numCpuBlocks, steps);
      var ds0, ms0 := RunHasCells(c, numCpuBlocks, init, d0, m0, computed[..n]);
      var d', m' := ds0[n], ms0[n];
      if steps[n].Iteration? {
        d', m' := ForwardPossible(c, numCpuBlocks, steps, ds0[n], ms0[n], computed[n]);
      }
      ds, ms := ds0 + [d'], ms0 + [m'];
      assert ds[..n + 1] == ds0 && ms[..n + 1] == ms0;
    }
  }

  lemma ForwardPossible<D(!new)>(c: Config, numCpuBlocks: nat, steps: seq<Step>, d: Data<D>, m: Cells<D>,
                                 computed: Data<D>)
    returns (d': Data<D>, m': Cells<D>)
    requires IsRun(c, numCpuBlocks, steps) && steps != [] && steps[|steps| - 1].Iteration?
    requires IsRun(c, numCpuBlocks, steps[..|steps| - 1])
    ensures Generate(c, numCpuBlocks, steps[..|steps| - 1]).Done?
    ensures var s := Generate(c, numCpuBlocks, steps[..|steps| - 1]).value.state;
            && Schedule(c, s).Done? && Forwarded(c, PromptLens(steps), s, d, d', m, m')
            && Takes(c, PromptLens(steps), s, computed, d')
  {
    hide Generate, Schedule, GenerationOk, PromptLens, Iterate, Wrote, Writes, Flat, PoolBounded, InBatch, LookupOk,
         PromptPath;
    var n := |steps| - 1;
    LastStep(c, numCpuBlocks, steps);
    RunIsOk(c, numCpuBlocks, steps[..n]);
    var w, admitted := Generate(c, numCpuBlocks, steps[..n]).value, History(c, numCpuBlocks, steps[..n]);
    IterationFacts(c, numCpuBlocks, w, admitted, steps[n].stop);
    ScheduledFlat(c, numCpuBlocks, w, admitted);
    var (s, out) := Schedule(c, w.state).value;
    var prompt := PromptPath(PromptLens(steps), s, out.scheduled);
    d' := (i: SeqId, pos: nat) => if Writes(s, out.scheduled, prompt, i, pos) then computed(i, pos) else d(i, pos);
    m' := WritesPossible(c, w.own, s, out.scheduled, prompt, d', m);
  }

  // ----- The result

  /**
   Before every iteration of every run, all positions of a running sequence but the last have been written since it was
   last admitted, exactly when that admission took the prompt path or was at one token; and what has been written is in
   its cell. The path was decided by the front sequence of the batch that was admitted: a group readmitted after a
   preemption, or a new prompt behind one, is not written.
   */
  lemma AllWrittenIff<D(!new)>(c: Config, numCpuBlocks: nat, steps: seq<Step>, ds: seq<Data<D>>, ms: seq<Cells<D>>,
                               i: SeqId)
    requires IsRun(c, numCpuBlocks, steps) && CacheRun(c, numCpuBlocks, steps, ds, ms)
    requires i in Generate(c, numCpuBlocks, steps).value.state.engine.tables
    ensures var s := Generate(c, numCpuBlocks, steps).value.state;
            var written := Written(c, numCpuBlocks, steps, i);
            && i in History(c, numCpuBlocks, steps)
            && ((forall pos: nat :: pos < Len(s.seqs, i) - 1 ==> pos in written) <==>
                || (i in Filled(c, numCpuBlocks, steps) && Filled(c, numCpuBlocks, steps)[i])
                || History(c, numCpuBlocks, steps)[i] == 1)
            && (forall pos: nat :: pos in written ==>
                  && pos / c.blockSize < |s.engine.tables[i]|
                  && ms[|steps|](Slot(c.blockSize, s.engine.tables[i], pos)) == ds[|steps|](i, pos))
  {
    hide Generate, Filled, Written, History, CacheRun, WorldOk, Slot;
    CacheHolds(c, numCpuBlocks, steps, ds, ms, i);
    RunIsOk(c, numCpuBlocks, steps);
    var s := Generate(c, numCpuBlocks, steps).value.state;
    if From(c, numCpuBlocks, steps, i) > 0 {
      assert 0 !in Written(c, numCpuBlocks, steps, i);
      assert 0 < Len(s.seqs, i) - 1;
    }
  }

  /** In a run in which no sequence has been admitted twice every admission took the prompt path. */
  lemma {:induction false} NeverPreempted(c: Config, numCpuBlocks: nat, steps: seq<Step>, i: SeqId)
    requires IsRun(c, numCpuBlocks, steps) && (forall j :: Admissions(c, numCpuBlocks, steps, j) <= 1)
    ensures i in Filled(c, numCpuBlocks, steps) ==> Filled(c, numCpuBlocks, steps)[i]
    ensures i in History(c, numCpuBlocks, steps) ==> i in Filled(c, numCpuBlocks, steps)
    decreases |steps|
  {
    hide Generate, AdmittedBatch, GenerationOk, InBatch, PromptPath;
    if steps != [] {
      var n := |steps| - 1;
      var init := steps[..n];
      Shorter(c, numCpuBlocks, steps);
      forall j ensures Admissions(c, numCpuBlocks, init, j) <= 1 {
        assert Admissions(c, numCpuBlocks, init, j) <= Admissions(c, numCpuBlocks, steps, j);
      }
      NeverPreempted(c, numCpuBlocks, init, i);
      var batch := AdmittedBatch(c, Generate(c, numCpuBlocks, init).value.state);
      if steps[n].Iteration? && InBatch(batch, i) {
        NotEmptyBatch(batch, i);
        FirstTime(c, numCpuBlocks, steps);
      }
    }
  }

  /** The front of an admitted batch that has not been admitted before is at its prompt. */
  lemma FirstTime(c: Config, numCpuBlocks: nat, steps: seq<Step>)
    requires IsRun(c, numCpuBlocks, steps) && steps != [] && steps[|steps| - 1].Iteration?
    requires forall j :: Admissions(c, numCpuBlocks, steps, j) <= 1
    requires Generate(c, numCpuBlocks, steps[..|steps| - 1]).Done?
    requires AdmittedBatch(c, Generate(c, numCpuBlocks, steps[..|steps| - 1]).value.state) != []
    ensures var w := Generate(c, numCpuBlocks, steps[..|steps| - 1]).value;
            PromptPath(PromptLens(steps), w.state, AdmittedBatch(c, w.state))
  {
    hide Generate, AdmittedBatch, GenerationOk, History, Admissions, AdmittedAt, InBatch, IsRun;
    var n := |steps| - 1;
    var init := steps[..n];
    Shorter(c, numCpuBlocks, steps);
    RunIsOk(c, numCpuBlocks, init);
    var w, admitted := Generate(c, numCpuBlocks, init).value, History(c, numCpuBlocks, init);
    var g := AdmittedBatch(c, w.state)[0];
    AdmittedNotEmpty(c, numCpuBlocks, w, admitted, g);
    var j := g.seqs[0];
    CountedNow(c, numCpuBlocks, steps, g, j);
    BatchKnown(c, numCpuBlocks, w, admitted, j);
    GenerationParts(c, numCpuBlocks, w, admitted);
    AdmittedOnce(c, numCpuBlocks, init, j);
    assert PromptLens(steps) == PromptLens(init);
  }

  lemma CountedNow(c: Config, numCpuBlocks: nat, steps: seq<Step>, g: Group, j: SeqId)
    requires steps != [] && steps[|steps| - 1].Iteration? && Generate(c, numCpuBlocks, steps[..|steps| - 1]).Done?
    requires g in AdmittedBatch(c, Generate(c, numCpuBlocks, steps[..|steps| - 1]).value.state) && j in g.seqs
    ensures InBatch(AdmittedBatch(c, Generate(c, numCpuBlocks, steps[..|steps| - 1]).value.state), j)
    ensures Admissions(c, numCpuBlocks, steps, j) == Admissions(c, numCpuBlocks, steps[..|steps| - 1], j) + 1
  {
    hide Generate, AdmittedBatch;
  }

  lemma AdmittedNotEmpty(c: Config, numCpuBlocks: nat, w: World, admitted: map<SeqId, nat>, g: Group)
    requires GenerationOk(c, numCpuBlocks, w, admitted) && g in AdmittedBatch(c, w.state)
    ensures g.seqs != []
  {
    hide SchedulerOk, Admit, WorldOk, PoolBounded;
    TablesNotEmpty(c, numCpuBlocks, w, admitted);
    WorldParts(c, numCpuBlocks, w);
    AdmitSafe(c, w.own, w.state, [], []);
    var batch := Admit(c, w.state, [], []).value.1;
    assert batch[0..] == batch;
    assert g in w.state.waiting;
    WaitingGroup(w.own, w.state, g);
  }

  lemma WaitingGroup(own: Owner, s: State, g: Group)
    requires SchedulerOk(own, s) && g in s.waiting
    ensures g.seqs != []
  {
    assert GroupOk(own, g);
  }
}
