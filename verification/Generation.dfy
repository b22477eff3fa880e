/**
 The generation loop of src/openai/pipelines/llm_engine.rs: schedule, look up the slot of the next token, sample, clean
 up. It relates the length of a block table to the number of tokens, and so says when the slot lookup is in bounds.
 */
module Generation {
  import opened Outcomes
  import opened Arithmetic
  import opened Pools
  import opened Engine
  import opened StepInvariant
  import opened Scheduler
  import opened ScheduleSafety
  import opened ScheduleTheorem
  import opened QueueOrder
  import opened SingleSequence
  import opened Admission
  import opened Runs

  ghost predicate InBatch(batch: seq<Group>, i: SeqId) {
    exists g :: g in batch && i in g.seqs
  }

  /** The position of the last token falls into an existing table entry. */
  predicate LookupOk(c: Config, s: State, i: SeqId) {
    && c.blockSize > 0 && i in s.engine.tables && Len(s.seqs, i) > 0
    && (Len(s.seqs, i) - 1) / c.blockSize < |s.engine.tables[i]|
  }

  /** Every scheduled sequence gets one token or, if it is in `stop`, a finish reason. */
  ghost function Sampled(seqs: map<SeqId, Sequence>, batch: seq<Group>, stop: set<SeqId>): map<SeqId, Sequence> {
    map i | i in seqs ::
      if !InBatch(batch, i) then seqs[i]
      else if i in stop then seqs[i].(status := Finished)
      else seqs[i].(len := seqs[i].len + 1)
  }

  /** One iteration of `generate`. An empty batch, an ignored group and a lookup out of bounds are panics. */
  ghost function Iterate(c: Config, w: World, stop: set<SeqId>): Outcome<World> {
    var (s, out) :- Schedule(c, w.state);
    if out.scheduled == [] || out.ignored != [] || !(forall i :: InBatch(out.scheduled, i) ==> LookupOk(c, s, i)) then
      Panic
    else
      Next(c, w.(state := s.(seqs := Sampled(s.seqs, out.scheduled, stop))), CleanUp)
  }

  datatype Step = Prompt(len: nat, arrival: nat) | Iteration(stop: set<SeqId>)

  ghost function Generate(c: Config, numCpuBlocks: nat, steps: seq<Step>): Outcome<World>
    decreases |steps|
  {
    if steps == [] then
      Done(Start(c, numCpuBlocks))
    else
      var w :- Generate(c, numCpuBlocks, steps[..|steps| - 1]);
      Advance(c, w, steps[|steps| - 1])
  }

  ghost function Advance(c: Config, w: World, step: Step): Outcome<World> {
    match step
    case Prompt(len, arrival) => Done(Request(w, len, arrival))
    case Iteration(stop) => Iterate(c, w, stop)
  }

  // ----- Table lengths

  /** The length of the table of a sequence admitted with `admitted` tokens that now has `len` tokens. */
  function TableLength(size: nat, admitted: nat, len: nat): int
    requires size > 0
  {
    CeilDiv(admitted, size) + if len > admitted then (len - 1) / size - admitted / size else 0
  }

  /** After the slot append of a decode step at `len` tokens, for a sequence admitted at `admitted` tokens. */
  lemma LookupAfterAppend(size: nat, admitted: nat, len: nat, tableLength: nat)
    requires size > 0 && 0 < admitted < len
    requires tableLength == TableLength(size, admitted, len) + if len % size == 0 then 1 else 0
    ensures tableLength == TableLength(size, admitted, len + 1)
    ensures admitted % size != 0 ==> tableLength == len / size + 1
    ensures admitted % size == 0 ==> tableLength == len / size
    ensures (len - 1) / size < tableLength <==> admitted % size != 0 || len % size == 0
  {
    DivStep(len, size);
    CeilStep(admitted, size);
  }

  /** Every table has the length its sequence's history says; `admitted` gives each length at admission. */
  ghost predicate LengthsOk(c: Config, s: State, admitted: map<SeqId, nat>) {
    forall i :: i in s.engine.tables ==>
      && c.blockSize > 0 && i in admitted && 0 < admitted[i] < Len(s.seqs, i)
      && |s.engine.tables[i]| == TableLength(c.blockSize, admitted[i], Len(s.seqs, i))
  }

  ghost predicate GenerationOk(c: Config, numCpuBlocks: nat, w: World, admitted: map<SeqId, nat>) {
    && WorldOk(c, numCpuBlocks, w) && c.blockSize > 0
    && (forall i :: i in w.own ==> Len(w.state.seqs, i) > 0)
    && LengthsOk(c, w.state, admitted)
  }

  lemma TablesNotEmpty(c: Config, numCpuBlocks: nat, w: World, admitted: map<SeqId, nat>)
    requires GenerationOk(c, numCpuBlocks, w, admitted)
    ensures SingleOk(w.own, w.state) && PoolBounded(c, w.state.engine)
  {
    hide SchedulerOk, Exclusive, NewPools, NumSeqs, TableLength;
    BoundedStart(c, numCpuBlocks, w.state.engine);
    forall i | i in w.state.engine.tables ensures w.state.engine.tables[i] != [] {
      TableLengthPositive(c.blockSize, admitted[i], Len(w.state.seqs, i));
    }
  }

  lemma TableLengthPositive(size: nat, admitted: nat, len: nat)
    requires size > 0 && 0 < admitted < len
    ensures TableLength(size, admitted, len) > 0
  {
    CeilStep(admitted, size);
    DivMonotone(admitted, len - 1, size);
    if admitted % size == 0 {
      DivStep(admitted, size);
      DivMonotone(0, admitted - 1, size);
    }
  }

  /**
   A decode step of a reachable state: never a panic in the scheduler, and the table of each running sequence lets its
   slot lookup succeed exactly when its length at admission was no multiple of the block size or its current length is
   one.
   */
  lemma DecodeLookups(c: Config, numCpuBlocks: nat, w: World, admitted: map<SeqId, nat>)
    requires GenerationOk(c, numCpuBlocks, w, admitted)
    ensures Decode(c, w.state).Done?
    ensures var s' := Decode(c, w.state).value.0;
            forall i :: i in s'.engine.tables ==>
              && i in admitted && 0 < admitted[i] < Len(s'.seqs, i) == Len(w.state.seqs, i)
              && |s'.engine.tables[i]| == TableLength(c.blockSize, admitted[i], Len(s'.seqs, i) + 1)
              && (admitted[i] % c.blockSize != 0 ==> |s'.engine.tables[i]| == Len(s'.seqs, i) / c.blockSize + 1)
              && (LookupOk(c, s', i) <==> admitted[i] % c.blockSize != 0 || Len(s'.seqs, i) % c.blockSize == 0)
  {
    hide SingleOk, Decode, TableLength, WorldOk, Ids;
    TablesNotEmpty(c, numCpuBlocks, w, admitted);
    DecodeSingle(c, w.own, w.state);
    var s' := Decode(c, w.state).value.0;
    forall i | i in s'.engine.tables
      ensures i in w.state.engine.tables && Len(s'.seqs, i) == Len(w.state.seqs, i)
      ensures |s'.engine.tables[i]| == TableLength(c.blockSize, admitted[i], Len(s'.seqs, i) + 1)
      ensures admitted[i] % c.blockSize != 0 ==> |s'.engine.tables[i]| == Len(s'.seqs, i) / c.blockSize + 1
      ensures LookupOk(c, s', i) <==> admitted[i] % c.blockSize != 0 || Len(s'.seqs, i) % c.blockSize == 0
    {
      LookupAfterAppend(c.blockSize, admitted[i], Len(w.state.seqs, i), |s'.engine.tables[i]|);
    }
  }

  /** In the iteration that admits a sequence, its lookups are always in bounds. */
  lemma AdmittedLookup(size: nat, len: nat)
    requires size > 0 && len > 0
    ensures (len - 1) / size < CeilDiv(len, size)
    ensures CeilDiv(len, size) == TableLength(size, len, len + 1)
  {
    DivStep(len, size);
    CeilStep(len, size);
  }

  // ----- Iterations keep the lengths

  /** The lengths at admission after a step that admitted `batch`. */
  ghost function Recorded(admitted: map<SeqId, nat>, s: State, batch: seq<Group>): map<SeqId, nat> {
    map i | i in admitted.Keys + s.seqs.Keys && (i in admitted || InBatch(batch, i)) ::
      if InBatch(batch, i) then Len(s.seqs, i) else admitted[i]
  }

  /** The groups that the next iteration admits. */
  ghost function AdmittedBatch(c: Config, s: State): seq<Group> {
    var a := if s.swappedOut == [] then Admit(c, s, [], []) else Done((s, [], []));
    if a.Done? then a.value.1 else []
  }

  /** The length of every sequence at its last admission in the run. */
  ghost function History(c: Config, numCpuBlocks: nat, steps: seq<Step>): map<SeqId, nat>
    decreases |steps|
  {
    if steps == [] then map[]
    else
      var n := |steps| - 1;
      var before := History(c, numCpuBlocks, steps[..n]);
      var w := Generate(c, numCpuBlocks, steps[..n]);
      if steps[n].Prompt? || w.Panic? then before
      else Recorded(before, w.value.state, AdmittedBatch(c, w.value.state))
  }

  /** Before sampling: scheduled sequences have the table of the next token, all others the table of the current one. */
  ghost predicate ReadyToSample(c: Config, s: State, batch: seq<Group>, admitted: map<SeqId, nat>) {
    forall i :: i in s.engine.tables ==>
      && c.blockSize > 0 && i in admitted && i in s.seqs
      && 0 < admitted[i] <= Len(s.seqs, i) && (!InBatch(batch, i) ==> admitted[i] < Len(s.seqs, i))
      && |s.engine.tables[i]| ==
         TableLength(c.blockSize, admitted[i], if InBatch(batch, i) then Len(s.seqs, i) + 1 else Len(s.seqs, i))
  }

  lemma AdmissionReady(c: Config, own: Owner, s: State, s': State, batch: seq<Group>, admitted: map<SeqId, nat>)
    requires LengthsOk(c, s, admitted) && c.blockSize > 0 && (forall i :: i in own ==> Len(s.seqs, i) > 0)
    requires SchedulerOk(own, s) && SchedulerOk(own, s') && Admitted(s, s', batch) && NewTables(c, s, s', batch)
    requires s.swappedOut == []
    ensures ReadyToSample(c, s', batch, Recorded(admitted, s, batch))
  {
    hide TableLength, SchedulerOk, LogicalBlocks, InBatch;
    KnownTables(own, s');
    OwnedTables(own, s');
    var admitted' := Recorded(admitted, s, batch);
    forall i | i in s'.engine.tables
      ensures i in admitted' && i in s'.seqs
      ensures 0 < admitted'[i] <= Len(s'.seqs, i) && (!InBatch(batch, i) ==> admitted'[i] < Len(s'.seqs, i))
      ensures |s'.engine.tables[i]| ==
              TableLength(c.blockSize, admitted'[i], if InBatch(batch, i) then Len(s'.seqs, i) + 1 else Len(s'.seqs, i))
    {
      assert i in own && i in s'.seqs && Len(s'.seqs, i) == Len(s.seqs, i);
      if InBatch(batch, i) {
        AdmittedLookup(c.blockSize, Len(s.seqs, i));
        BatchTable(c, s, s', batch, i);
      } else {
        OldTable(own, s, s', batch, i);
      }
    }
  }

  lemma BatchTable(c: Config, s: State, s': State, batch: seq<Group>, i: SeqId)
    requires NewTables(c, s, s', batch) && InBatch(batch, i) && c.blockSize > 0
    ensures i in s'.engine.tables && |s'.engine.tables[i]| == CeilDiv(Len(s.seqs, i), c.blockSize)
  {
  }

  lemma OldTable(own: Owner, s: State, s': State, batch: seq<Group>, i: SeqId)
    requires SchedulerOk(own, s) && SchedulerOk(own, s') && Admitted(s, s', batch) && s.swappedOut == []
    requires i in s'.engine.tables && !InBatch(batch, i)
    ensures i in s.engine.tables
  {
    hide Consistent, NoSharing, Placed;
    assert own[i] in Ids(s'.running);
    var g :| g in s'.running && g.id == own[i];
    assert GroupOk(own, g) && i in g.seqs;
    assert g in s.running;
  }

  lemma SampleKeepsLengths(c: Config, s: State, batch: seq<Group>, admitted: map<SeqId, nat>, stop: set<SeqId>,
                           s': State)
    requires ReadyToSample(c, s, batch, admitted)
    requires s'.seqs == Sampled(s.seqs, batch, stop)
    requires forall i :: i in s'.engine.tables ==> i in s.engine.tables && s'.engine.tables[i] == s.engine.tables[i]
    requires forall i :: i in s'.engine.tables ==> !(InBatch(batch, i) && i in stop)
    ensures LengthsOk(c, s', admitted)
  {
    hide InBatch, TableLength;
  }

  lemma StoppedIsFreed(own: Owner, s: State, batch: seq<Group>, stop: set<SeqId>, running': seq<Group>, s': State,
                       i: SeqId)
    requires SchedulerOk(own, s') && s'.swappedOut == []
    requires s'.running == Unfinished(Sampled(s.seqs, batch, stop), running')
    requires AllSingle(running') && QueueOk(own, running')
    requires InBatch(batch, i) && i in stop && i in s.seqs
    ensures i !in s'.engine.tables
  {
    hide SchedulerOk, Sampled, GroupFinished, GroupOk, Unfinished;
    var seqs' := Sampled(s.seqs, batch, stop);
    UnfinishedOk(own, seqs', running');
    forall g | g in s'.running ensures i !in g.seqs {
      assert g in running' && !GroupFinished(seqs', g) && |g.seqs| == 1;
      if i in g.seqs {
        StoppedGroupFinished(s.seqs, batch, stop, g, i);
      }
    }
    if i in s'.engine.tables {
      TableInBatch(own, s', i);
    }
  }

  lemma StoppedGroupFinished(seqs: map<SeqId, Sequence>, batch: seq<Group>, stop: set<SeqId>, g: Group, i: SeqId)
    requires |g.seqs| == 1 && i in g.seqs && InBatch(batch, i) && i in stop && i in seqs
    ensures GroupFinished(Sampled(seqs, batch, stop), g)
  {
    hide InBatch;
    assert g.seqs == [i];
  }

  /** What one iteration does up to and including the schedule step. */
  lemma ScheduleReady(c: Config, numCpuBlocks: nat, w: World, admitted: map<SeqId, nat>)
    requires GenerationOk(c, numCpuBlocks, w, admitted) && Schedule(c, w.state).Done?
    ensures var (s, out) := Schedule(c, w.state).value;
            && ReadyToSample(c, s, out.scheduled, Recorded(admitted, w.state, AdmittedBatch(c, w.state)))
            && (forall i :: i in w.state.seqs <==> i in s.seqs)
            && (forall i :: i in s.seqs ==> s.seqs[i].len == w.state.seqs[i].len)
  {
    hide SchedulerOk, WorldOk, Admit, Decode, LengthsOk, ReadyToSample, TableLength, PoolBounded;
    var s := w.state;
    TablesNotEmpty(c, numCpuBlocks, w, admitted);
    WorldParts(c, numCpuBlocks, w);
    AdmitSafe(c, w.own, s, [], []);
    AdmitSingle(c, w.own, s, [], []);
    var (s1, scheduled, ignored) := Admit(c, s, [], []).value;
    assert scheduled[0..] == scheduled;
    if scheduled != [] {
      AdmissionReady(c, w.own, s, s1, scheduled, admitted);
    } else {
      NothingAdmitted(c, s);
      NothingRecorded(admitted, s);
      DecodeReady(c, numCpuBlocks, w, admitted);
    }
  }

  lemma NothingRecorded(admitted: map<SeqId, nat>, s: State)
    ensures Recorded(admitted, s, []) == admitted
  {
  }

  lemma WorldParts(c: Config, numCpuBlocks: nat, w: World)
    requires WorldOk(c, numCpuBlocks, w)
    ensures SchedulerOk(w.own, w.state) && AllSingle(w.state.running) && w.state.swappedOut == []
    ensures Exclusive(w.state.engine.tables)
  {
    hide SchedulerOk, AllSingle, Exclusive, NewPools, NumSeqs, Numbered;
  }

  lemma DecodeReady(c: Config, numCpuBlocks: nat, w: World, admitted: map<SeqId, nat>)
    requires GenerationOk(c, numCpuBlocks, w, admitted)
    ensures Decode(c, w.state).Done?
    ensures var (s, out) := Decode(c, w.state).value;
            && ReadyToSample(c, s, out.scheduled, admitted) && out.ignored == []
            && (forall i :: i in w.state.seqs <==> i in s.seqs)
            && (forall i :: i in s.seqs ==> s.seqs[i].len == w.state.seqs[i].len)
  {
    hide Decode, WorldOk, LookupOk, LengthsOk, TableLength, PoolBounded, Exclusive, NoEmptyTable, Lengths;
    TablesNotEmpty(c, numCpuBlocks, w, admitted);
    DecodeSingle(c, w.own, w.state);
    DecodeLookups(c, numCpuBlocks, w, admitted);
    var (s, out) := Decode(c, w.state).value;
    forall i | i in s.engine.tables ensures InBatch(out.scheduled, i) && i in s.seqs {
      TableInBatch(w.own, s, i);
    }
  }

  lemma TableInBatch(own: Owner, s: State, i: SeqId)
    requires SchedulerOk(own, s) && s.swappedOut == [] && i in s.engine.tables
    ensures InBatch(s.running, i) && i in s.seqs
  {
    hide Consistent, NoSharing, Placed;
    assert own[i] in Ids(s.running);
    var g :| g in s.running && g.id == own[i];
    assert GroupOk(own, g) && i in g.seqs;
  }

  lemma IterateOk(c: Config, numCpuBlocks: nat, w: World, admitted: map<SeqId, nat>, stop: set<SeqId>)
    requires GenerationOk(c, numCpuBlocks, w, admitted) && Iterate(c, w, stop).Done?
    ensures GenerationOk(c, numCpuBlocks, Iterate(c, w, stop).value,
                         Recorded(admitted, w.state, AdmittedBatch(c, w.state)))
  {
    hide WorldOk, Schedule, LengthsOk, ReadyToSample, LookupOk, InBatch, Unfinished, AdmittedBatch, Recorded;
    var admitted' := Recorded(admitted, w.state, AdmittedBatch(c, w.state));
    ScheduleReady(c, numCpuBlocks, w, admitted);
    var (s, out) := Schedule(c, w.state).value;
    ScheduleEventOk(c, numCpuBlocks, w);
    var w1 := w.(state := s);
    var seqs' := Sampled(s.seqs, out.scheduled, stop);
    TokensOk(c, numCpuBlocks, w1, seqs');
    var w2 := w1.(state := s.(seqs := seqs'));
    FreeFinishedOk(c, numCpuBlocks, w2);
    var w' := Next(c, w2, CleanUp).value;
    assert w'.state.seqs == seqs' && w'.state.running == Unfinished(seqs', s.running);
    WorldParts(c, numCpuBlocks, w2);
    WorldParts(c, numCpuBlocks, w');
    CleanUpTables(c, numCpuBlocks, w2);
    KnownTables(w2.own, w2.state);
    forall i | i in w'.state.engine.tables && InBatch(out.scheduled, i) && i in stop ensures false {
      StoppedIsFreed(w.own, s, out.scheduled, stop, s.running, w'.state, i);
    }
    SampleKeepsLengths(c, s, out.scheduled, admitted', stop, w'.state);
    forall i | i in w'.own ensures Len(w'.state.seqs, i) > 0 {
      assert Len(w.state.seqs, i) > 0;
    }
  }

  /** Once the lookups have succeeded, nothing in the iteration can panic. */
  lemma SampleNeverPanics(c: Config, numCpuBlocks: nat, w: World, batch: seq<Group>, stop: set<SeqId>)
    requires WorldOk(c, numCpuBlocks, w) && Schedule(c, w.state).Done?
    ensures var s := Schedule(c, w.state).value.0;
            Next(c, w.(state := s.(seqs := Sampled(s.seqs, batch, stop))), CleanUp).Done?
  {
    hide WorldOk, Schedule, InBatch, FreeFinished;
    ScheduleEventOk(c, numCpuBlocks, w);
    var w1 := w.(state := Schedule(c, w.state).value.0);
    var seqs' := Sampled(w1.state.seqs, batch, stop);
    TokensOk(c, numCpuBlocks, w1, seqs');
    FreeFinishedOk(c, numCpuBlocks, w1.(state := w1.state.(seqs := seqs')));
  }

  /** The lookups of freshly admitted sequences are in bounds. */
  lemma AdmittedLookups(c: Config, own: Owner, s: State, s': State, batch: seq<Group>)
    requires SchedulerOk(own, s') && Admitted(s, s', batch) && NewTables(c, s, s', batch) && c.blockSize > 0
    requires forall i :: i in own ==> Len(s.seqs, i) > 0
    ensures forall i :: InBatch(batch, i) ==> LookupOk(c, s', i)
  {
    hide SchedulerOk;
    KnownTables(own, s');
    OwnedTables(own, s');
    forall i | InBatch(batch, i) ensures LookupOk(c, s', i) {
      BatchTable(c, s, s', batch, i);
      assert Len(s'.seqs, i) == Len(s.seqs, i);
      AdmittedLookup(c.blockSize, Len(s.seqs, i));
    }
  }

  /** A running sequence whose next token has no table entry. */
  ghost predicate PastTable(c: Config, s: State, admitted: map<SeqId, nat>, i: SeqId) {
    i in admitted && c.blockSize > 0 && admitted[i] % c.blockSize == 0 && Len(s.seqs, i) % c.blockSize != 0
  }

  /**
   When an iteration panics, exactly: admission panics; or nothing is admitted and nothing runs, the only running
   group has to preempt itself, or a sequence that keeps running was admitted with a multiple of the block size and
   does not have one now.
   */
  lemma IteratePanicsIff(c: Config, numCpuBlocks: nat, w: World, admitted: map<SeqId, nat>, stop: set<SeqId>)
    requires GenerationOk(c, numCpuBlocks, w, admitted)
    ensures Decode(c, w.state).Done?
    ensures Iterate(c, w, stop).Panic? <==>
            var a := Admit(c, w.state, [], []);
            || a.Panic?
            || (a.value.1 == [] &&
                (|| w.state.running == []
                 || (|w.state.running| == 1 && !CanAppend(c, w.state, w.state.running[0]))
                 || exists i :: i in Decode(c, w.state).value.0.engine.tables && PastTable(c, w.state, admitted, i)))
  {
    hide Admit, Decode, WorldOk, SchedulerOk, CanAppend, PastTable, LookupOk, InBatch, Exclusive, NoEmptyTable,
         Lengths, Next;
    var s := w.state;
    TablesNotEmpty(c, numCpuBlocks, w, admitted);
    WorldParts(c, numCpuBlocks, w);
    DecodeSingle(c, w.own, s);
    if Admit(c, s, [], []).Done? {
      AdmitSafe(c, w.own, s, [], []);
      AdmitSingle(c, w.own, s, [], []);
      var (s1, scheduled, ignored) := Admit(c, s, [], []).value;
      assert scheduled[0..] == scheduled;
      if scheduled == [] {
        NothingAdmitted(c, s);
      }
      SampleNeverPanics(c, numCpuBlocks, w, Schedule(c, s).value.1.scheduled, stop);
      if scheduled != [] {
        AdmittedLookups(c, w.own, s, s1, scheduled);
      } else {
        RunningLookups(c, numCpuBlocks, w, admitted);
      }
    }
  }

  lemma RunningLookups(c: Config, numCpuBlocks: nat, w: World, admitted: map<SeqId, nat>)
    requires GenerationOk(c, numCpuBlocks, w, admitted)
    ensures Decode(c, w.state).Done?
    ensures var (s', out) := Decode(c, w.state).value;
            && out.scheduled == s'.running && out.ignored == []
            && ((exists i :: i in s'.engine.tables && PastTable(c, w.state, admitted, i)) <==>
                !(forall i :: InBatch(out.scheduled, i) ==> LookupOk(c, s', i)))
  {
    hide Decode, LookupOk, WorldOk, InBatch, Lengths, Exclusive, NoEmptyTable, TableLength;
    TablesNotEmpty(c, numCpuBlocks, w, admitted);
    DecodeSingle(c, w.own, w.state);
    DecodeLookups(c, numCpuBlocks, w, admitted);
    var s' := Decode(c, w.state).value.0;
    forall i ensures i in s'.engine.tables <==> InBatch(s'.running, i) {
      if i in s'.engine.tables {
        TableInBatch(w.own, s', i);
      }
      if InBatch(s'.running, i) {
        BatchHasTable(w.own, s', i);
      }
    }
    assert forall i :: i in s'.engine.tables ==> (LookupOk(c, s', i) <==> !PastTable(c, w.state, admitted, i));
  }

  lemma BatchHasTable(own: Owner, s: State, i: SeqId)
    requires SchedulerOk(own, s) && InBatch(s.running, i)
    ensures i in s.engine.tables
  {
    hide Consistent, NoSharing, Placed;
    var g :| g in s.running && i in g.seqs;
    assert GroupOk(own, g) && g.id in Ids(s.running);
  }

  lemma KnownTables(own: Owner, s: State)
    requires SchedulerOk(own, s)
    ensures QueueOk(own, s.running) && (forall i :: i in s.engine.tables ==> i in s.seqs)
  {
    hide Consistent, NoSharing, Placed;
  }

  lemma CleanUpTables(c: Config, numCpuBlocks: nat, w: World)
    requires WorldOk(c, numCpuBlocks, w)
    ensures FreeFinished(w.state).Done?
    ensures var s' := FreeFinished(w.state).value;
            forall i :: i in s'.engine.tables ==>
              i in w.state.engine.tables && s'.engine.tables[i] == w.state.engine.tables[i]
  {
    hide SchedulerOk, NewPools, References, Exclusive, NumSeqs, AllSingle, Numbered;
    CleanUpSafe(w.own, w.state);
  }

  lemma PromptOk(c: Config, numCpuBlocks: nat, w: World, admitted: map<SeqId, nat>, len: nat, arrival: nat)
    requires GenerationOk(c, numCpuBlocks, w, admitted) && len > 0
    ensures GenerationOk(c, numCpuBlocks, Request(w, len, arrival), admitted)
  {
    hide SchedulerOk, Exclusive, NewPools, NumSeqs, AllSingle;
    RequestOk(c, numCpuBlocks, w, len, arrival);
    OwnedTables(w.own, w.state);
    forall i | i in w.state.engine.tables ensures i != w.nextSeq {
      assert i in w.own;
    }
  }

  /** Every state of every run of the generation loop on nonempty prompts, with the lengths at admission of that run. */
  lemma {:induction false} GenerateOk(c: Config, numCpuBlocks: nat, steps: seq<Step>)
    requires c.blockSize > 0 && Generate(c, numCpuBlocks, steps).Done?
    requires forall step :: step in steps && step.Prompt? ==> step.len > 0
    ensures GenerationOk(c, numCpuBlocks, Generate(c, numCpuBlocks, steps).value, History(c, numCpuBlocks, steps))
    decreases |steps|
  {
    hide GenerationOk, Start, Iterate, Request, Recorded, AdmittedBatch;
    if steps == [] {
      NoTablesYet(c, numCpuBlocks);
    } else {
      var n := |steps| - 1;
      assert steps == steps[..n] + [steps[n]];
      GenerateOk(c, numCpuBlocks, steps[..n]);
      var w, before := Generate(c, numCpuBlocks, steps[..n]).value, History(c, numCpuBlocks, steps[..n]);
      match steps[n]
      case Prompt(len, arrival) =>
        PromptOk(c, numCpuBlocks, w, before, len, arrival);
      case Iteration(stop) =>
        IterateOk(c, numCpuBlocks, w, before, stop);
    }
  }

  lemma NoTablesYet(c: Config, numCpuBlocks: nat)
    requires c.blockSize > 0
    ensures GenerationOk(c, numCpuBlocks, Start(c, numCpuBlocks), map[])
  {
    hide WorldOk;
    StartOk(c, numCpuBlocks);
  }
}
