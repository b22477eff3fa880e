/** The lengths at admission of a run: what they are, and what they decide. */
module RunHistory {
  import opened Outcomes
  import Arithmetic
  import StepInvariant
  import opened Pools
  import opened Engine
  import opened Scheduler
  import opened ScheduleSafety
  import opened ScheduleTheorem
  import opened QueueOrder
  import opened SingleSequence
  import opened Runs
  import opened Generation

  /** The runs of the generation loop considered here: nonempty prompts, no panic so far. */
  ghost predicate IsRun(c: Config, numCpuBlocks: nat, steps: seq<Step>) {
    && c.blockSize > 0 && Generate(c, numCpuBlocks, steps).Done?
    && (forall step :: step in steps && step.Prompt? ==> step.len > 0)
  }

  lemma Shorter(c: Config, numCpuBlocks: nat, steps: seq<Step>)
    requires IsRun(c, numCpuBlocks, steps) && steps != []
    ensures IsRun(c, numCpuBlocks, steps[..|steps| - 1])
  {
    hide Advance;
    assert forall step :: step in steps[..|steps| - 1] ==> step in steps;
  }

  // ----- Which lengths these are

  /** Step `k` of the run is an iteration that admits sequence `i`. */
  ghost predicate AdmittedAt(c: Config, numCpuBlocks: nat, steps: seq<Step>, k: int, i: SeqId) {
    && 0 <= k < |steps| && steps[k].Iteration? && Generate(c, numCpuBlocks, steps[..k]).Done?
    && InBatch(AdmittedBatch(c, Generate(c, numCpuBlocks, steps[..k]).value.state), i)
  }

  /** `k` is the last step of the run that admits `i`. */
  ghost predicate LastAdmission(c: Config, numCpuBlocks: nat, steps: seq<Step>, k: int, i: SeqId) {
    && AdmittedAt(c, numCpuBlocks, steps, k, i)
    && (forall l :: k < l < |steps| ==> !AdmittedAt(c, numCpuBlocks, steps, l, i))
  }

  lemma AdmittedEarlier(c: Config, numCpuBlocks: nat, steps: seq<Step>, n: nat, k: int, i: SeqId)
    requires n <= |steps| && k < n
    ensures AdmittedAt(c, numCpuBlocks, steps[..n], k, i) <==> AdmittedAt(c, numCpuBlocks, steps, k, i)
  {
    hide Generate, InBatch, AdmittedBatch;
    if 0 <= k {
      assert steps[..n][..k] == steps[..k];
    }
  }

  /** Admitted sequences are known. */
  lemma BatchKnown(c: Config, numCpuBlocks: nat, w: World, admitted: map<SeqId, nat>, i: SeqId)
    requires GenerationOk(c, numCpuBlocks, w, admitted) && InBatch(AdmittedBatch(c, w.state), i)
    ensures i in w.own && i in w.state.seqs
  {
    hide SchedulerOk, Admit, WorldOk, PoolBounded;
    TablesNotEmpty(c, numCpuBlocks, w, admitted);
    WorldParts(c, numCpuBlocks, w);
    AdmitSafe(c, w.own, w.state, [], []);
    var batch := Admit(c, w.state, [], []).value.1;
    assert batch[0..] == batch;
    var g :| g in batch && i in g.seqs;
    WaitingKnown(w.own, w.state, g, i);
  }

  lemma WaitingKnown(own: StepInvariant.Owner, s: State, g: Group, i: SeqId)
    requires SchedulerOk(own, s) && g in s.waiting && i in g.seqs
    ensures i in own && i in s.seqs
  {
    assert GroupOk(own, g);
  }

  /**
   The record of a run holds exactly the admitted sequences, each with its length when it was last admitted, which was
   in step `k`.
   */
  lemma {:induction false} HistoryIsLastAdmission(c: Config, numCpuBlocks: nat, steps: seq<Step>, i: SeqId)
    returns (k: int)
    requires IsRun(c, numCpuBlocks, steps)
    ensures if i in History(c, numCpuBlocks, steps) then
              && LastAdmission(c, numCpuBlocks, steps, k, i)
              && History(c, numCpuBlocks, steps)[i] == Len(Generate(c, numCpuBlocks, steps[..k]).value.state.seqs, i)
            else
              forall l :: !AdmittedAt(c, numCpuBlocks, steps, l, i)
    decreases |steps|
  {
    hide Generate, AdmittedBatch, GenerationOk, InBatch, History, IsRun, AdmittedAt;
    if steps == [] {
      k := -1;
      NoneAdmitted(c, numCpuBlocks, i);
    } else {
      var n := |steps| - 1;
      var init := steps[..n];
      Shorter(c, numCpuBlocks, steps);
      k := HistoryIsLastAdmission(c, numCpuBlocks, init, i);
      forall l | l < n ensures AdmittedAt(c, numCpuBlocks, init, l, i) <==> AdmittedAt(c, numCpuBlocks, steps, l, i) {
        AdmittedEarlier(c, numCpuBlocks, steps, n, l, i);
      }
      forall l
        ensures AdmittedAt(c, numCpuBlocks, steps, l, i) ==>
                  l <= n && (l < n ==> AdmittedAt(c, numCpuBlocks, init, l, i))
      {
        OnlySteps(c, numCpuBlocks, steps, l, i);
      }
      if AdmittedAt(c, numCpuBlocks, steps, n, i) {
        k := n;
        NewRecord(c, numCpuBlocks, steps, i);
      } else {
        SameRecord(c, numCpuBlocks, steps, i);
        if i in History(c, numCpuBlocks, init) {
          OnlySteps(c, numCpuBlocks, init, k, i);
          assert init[..k] == steps[..k];
        }
      }
    }
  }

  lemma NoneAdmitted(c: Config, numCpuBlocks: nat, i: SeqId)
    ensures i !in History(c, numCpuBlocks, []) && (forall l :: !AdmittedAt(c, numCpuBlocks, [], l, i))
  {
  }

  lemma OnlySteps(c: Config, numCpuBlocks: nat, steps: seq<Step>, k: int, i: SeqId)
    ensures AdmittedAt(c, numCpuBlocks, steps, k, i) ==> 0 <= k < |steps| && Generate(c, numCpuBlocks, steps[..k]).Done?
  {
    hide Generate, AdmittedBatch, InBatch;
  }

  lemma NewRecord(c: Config, numCpuBlocks: nat, steps: seq<Step>, i: SeqId)
    requires IsRun(c, numCpuBlocks, steps) && steps != [] && AdmittedAt(c, numCpuBlocks, steps, |steps| - 1, i)
    ensures var n := |steps| - 1;
            && i in History(c, numCpuBlocks, steps) && Generate(c, numCpuBlocks, steps[..n]).Done?
            && History(c, numCpuBlocks, steps)[i] == Len(Generate(c, numCpuBlocks, steps[..n]).value.state.seqs, i)
  {
    hide Generate, AdmittedBatch, GenerationOk, InBatch;
    var init := steps[..|steps| - 1];
    Shorter(c, numCpuBlocks, steps);
    GenerateOk(c, numCpuBlocks, init);
    BatchKnown(c, numCpuBlocks, Generate(c, numCpuBlocks, init).value, History(c, numCpuBlocks, init), i);
  }

  lemma SameRecord(c: Config, numCpuBlocks: nat, steps: seq<Step>, i: SeqId)
    requires steps != [] && !AdmittedAt(c, numCpuBlocks, steps, |steps| - 1, i)
    ensures var before, after := History(c, numCpuBlocks, steps[..|steps| - 1]), History(c, numCpuBlocks, steps);
            (i in before <==> i in after) && (i in before ==> after[i] == before[i])
  {
    hide Generate, AdmittedBatch, InBatch;
  }

  // ----- Prompt lengths

  /** The lengths of the prompts of a run; sequence `i` has the `i`th. */
  function PromptLens(steps: seq<Step>): seq<nat> {
    if steps == [] then []
    else
      var n := |steps| - 1;
      PromptLens(steps[..n]) + if steps[n].Prompt? then [steps[n].len] else []
  }

  /** How often the run admits sequence `i`. */
  ghost function Admissions(c: Config, numCpuBlocks: nat, steps: seq<Step>, i: SeqId): nat {
    if steps == [] then 0
    else
      var n := |steps| - 1;
      Admissions(c, numCpuBlocks, steps[..n], i) + if AdmittedAt(c, numCpuBlocks, steps, n, i) then 1 else 0
  }

  /** An iteration adds tokens only to sequences that it admits or that were admitted before. */
  lemma IterateLens(c: Config, numCpuBlocks: nat, w: World, admitted: map<SeqId, nat>, stop: set<SeqId>, i: SeqId)
    requires GenerationOk(c, numCpuBlocks, w, admitted) && Iterate(c, w, stop).Done?
    ensures var w' := Iterate(c, w, stop).value;
            && w'.own == w.own && w'.nextSeq == w.nextSeq
            && (InBatch(AdmittedBatch(c, w.state), i) || i in admitted || Len(w'.state.seqs, i) == Len(w.state.seqs, i))
  {
    hide Admit, Decode, WorldOk, SchedulerOk, LookupOk, FreeFinishedGroups, Unfinished, Exclusive, NoEmptyTable,
         Lengths, CanAppend, InBatch, GenerationOk, PoolBounded;
    TablesNotEmpty(c, numCpuBlocks, w, admitted);
    GenerationParts(c, numCpuBlocks, w, admitted);
    var s := w.state;
    var (s1, out) := Schedule(c, s).value;
    ScheduleReady(c, numCpuBlocks, w, admitted);
    assert Len(s1.seqs, i) == Len(s.seqs, i);
    AdmitSafe(c, w.own, s, [], []);
    if InBatch(out.scheduled, i) && Admit(c, s, [], []).value.1 == [] {
      NothingAdmitted(c, s);
      DecodeSingle(c, w.own, s);
      DecodeLookups(c, numCpuBlocks, w, admitted);
      BatchHasTable(w.own, s1, i);
    }
  }

  lemma GenerationParts(c: Config, numCpuBlocks: nat, w: World, admitted: map<SeqId, nat>)
    requires GenerationOk(c, numCpuBlocks, w, admitted)
    ensures SchedulerOk(w.own, w.state) && w.state.swappedOut == [] && (forall i :: i in w.own ==> i < w.nextSeq)
  {
    hide SchedulerOk, AllSingle, Exclusive, NewPools, NumSeqs;
  }

  /** What the first admission of a sequence records. */
  ghost predicate PromptFirst(c: Config, numCpuBlocks: nat, steps: seq<Step>, w: World, i: SeqId) {
    && i < |PromptLens(steps)|
    && (Admissions(c, numCpuBlocks, steps, i) == 0 ==>
          i !in History(c, numCpuBlocks, steps) && Len(w.state.seqs, i) == PromptLens(steps)[i])
    && (Admissions(c, numCpuBlocks, steps, i) == 1 ==>
          i in History(c, numCpuBlocks, steps) && History(c, numCpuBlocks, steps)[i] == PromptLens(steps)[i])
  }

  /** A sequence that was admitted once was admitted with the length of its prompt. */
  lemma {:induction false} AdmittedOnce(c: Config, numCpuBlocks: nat, steps: seq<Step>, i: SeqId)
    requires IsRun(c, numCpuBlocks, steps)
    ensures Generate(c, numCpuBlocks, steps).value.nextSeq == |PromptLens(steps)|
    ensures i < |PromptLens(steps)| ==> PromptFirst(c, numCpuBlocks, steps, Generate(c, numCpuBlocks, steps).value, i)
    decreases |steps|
  {
    hide GenerationOk, AdmittedBatch, InBatch, Iterate, AdmittedAt, PromptFirst, History;
    if steps != [] {
      var n := |steps| - 1;
      var init := steps[..n];
      Shorter(c, numCpuBlocks, steps);
      AdmittedOnce(c, numCpuBlocks, init, i);
      if steps[n].Prompt? {
        PromptAdds(c, numCpuBlocks, steps, i);
      } else {
        IterationKeeps(c, numCpuBlocks, steps, i);
      }
    }
  }

  lemma PromptAdds(c: Config, numCpuBlocks: nat, steps: seq<Step>, i: SeqId)
    requires IsRun(c, numCpuBlocks, steps) && steps != [] && steps[|steps| - 1].Prompt?
    requires var init := steps[..|steps| - 1];
             && IsRun(c, numCpuBlocks, init) && Generate(c, numCpuBlocks, init).value.nextSeq == |PromptLens(init)|
             && (i < |PromptLens(init)| ==>
                   PromptFirst(c, numCpuBlocks, init, Generate(c, numCpuBlocks, init).value, i))
    ensures Generate(c, numCpuBlocks, steps).value.nextSeq == |PromptLens(steps)|
    ensures i < |PromptLens(steps)| ==> PromptFirst(c, numCpuBlocks, steps, Generate(c, numCpuBlocks, steps).value, i)
  {
    hide AdmittedBatch, InBatch, Iterate, GenerationOk;
    var n := |steps| - 1;
    var init := steps[..n];
    assert Generate(c, numCpuBlocks, steps)
        == Done(Request(Generate(c, numCpuBlocks, init).value, steps[n].len, steps[n].arrival));
    if i == |PromptLens(init)| {
      NotYetAdmitted(c, numCpuBlocks, init, i);
    }
  }

  /** A sequence not yet requested has not been admitted. */
  lemma {:induction false} NotYetAdmitted(c: Config, numCpuBlocks: nat, steps: seq<Step>, i: SeqId)
    requires IsRun(c, numCpuBlocks, steps) && i >= Generate(c, numCpuBlocks, steps).value.nextSeq
    ensures Admissions(c, numCpuBlocks, steps, i) == 0 && i !in History(c, numCpuBlocks, steps)
    decreases |steps|
  {
    hide AdmittedBatch, InBatch, Iterate, GenerationOk;
    if steps != [] {
      var n := |steps| - 1;
      var init := steps[..n];
      Shorter(c, numCpuBlocks, steps);
      GenerateOk(c, numCpuBlocks, init);
      var w, before := Generate(c, numCpuBlocks, init).value, History(c, numCpuBlocks, init);
      if steps[n].Iteration? {
        IterateLens(c, numCpuBlocks, w, before, steps[n].stop, i);
        NotYetAdmitted(c, numCpuBlocks, init, i);
        if InBatch(AdmittedBatch(c, w.state), i) {
          BatchKnown(c, numCpuBlocks, w, before, i);
          GenerationParts(c, numCpuBlocks, w, before);
        }
      } else {
        NotYetAdmitted(c, numCpuBlocks, init, i);
      }
    }
  }

  lemma IterationKeeps(c: Config, numCpuBlocks: nat, steps: seq<Step>, i: SeqId)
    requires IsRun(c, numCpuBlocks, steps) && steps != [] && steps[|steps| - 1].Iteration?
    requires var init := steps[..|steps| - 1];
             && IsRun(c, numCpuBlocks, init) && Generate(c, numCpuBlocks, init).value.nextSeq == |PromptLens(init)|
             && (i < |PromptLens(init)| ==>
                   PromptFirst(c, numCpuBlocks, init, Generate(c, numCpuBlocks, init).value, i))
    ensures Generate(c, numCpuBlocks, steps).value.nextSeq == |PromptLens(steps)|
    ensures i < |PromptLens(steps)| ==> PromptFirst(c, numCpuBlocks, steps, Generate(c, numCpuBlocks, steps).value, i)
  {
    hide AdmittedBatch, InBatch, Iterate, GenerationOk;
    var n := |steps| - 1;
    var init := steps[..n];
    GenerateOk(c, numCpuBlocks, init);
    var w, before := Generate(c, numCpuBlocks, init).value, History(c, numCpuBlocks, init);
    assert Generate(c, numCpuBlocks, steps) == Iterate(c, w, steps[n].stop);
    IterateLens(c, numCpuBlocks, w, before, steps[n].stop, i);
    assert PromptLens(steps) == PromptLens(init);
    if InBatch(AdmittedBatch(c, w.state), i) {
      BatchKnown(c, numCpuBlocks, w, before, i);
    }
  }

  // ----- What they decide

  /**
   After the slot appends of every decode step of every run, a sequence last admitted with a length that is no multiple
   of the block size has exactly `len / block_size + 1` table entries and its lookup is in bounds; one admitted with a
   multiple has one entry fewer, and its lookup is in bounds exactly at lengths that are multiples.
   */
  lemma RunLookups(c: Config, numCpuBlocks: nat, steps: seq<Step>, i: SeqId)
    requires IsRun(c, numCpuBlocks, steps)
    ensures Decode(c, Generate(c, numCpuBlocks, steps).value.state).Done?
    ensures var s := Decode(c, Generate(c, numCpuBlocks, steps).value.state).value.0;
            var admitted := History(c, numCpuBlocks, steps);
            i in s.engine.tables ==>
              && i in admitted
              && |s.engine.tables[i]| ==
                 Len(s.seqs, i) / c.blockSize + (if admitted[i] % c.blockSize != 0 then 1 else 0)
              && (LookupOk(c, s, i) <==> admitted[i] % c.blockSize != 0 || Len(s.seqs, i) % c.blockSize == 0)
  {
    hide Decode, Generate, History, LookupOk;
    GenerateOk(c, numCpuBlocks, steps);
    var w, admitted := Generate(c, numCpuBlocks, steps).value, History(c, numCpuBlocks, steps);
    DecodeLookups(c, numCpuBlocks, w, admitted);
    var s := Decode(c, w.state).value.0;
    if i in s.engine.tables {
      NextTableLength(c.blockSize, admitted[i], Len(s.seqs, i));
    }
  }

  lemma NextTableLength(size: nat, admitted: nat, len: nat)
    requires size > 0 && 0 < admitted < len
    ensures TableLength(size, admitted, len + 1) == len / size + (if admitted % size != 0 then 1 else 0)
  {
    Arithmetic.CeilStep(admitted, size);
  }

  /** In particular a sequence that has never been preempted is safe if its prompt does not fill its blocks. */
  lemma UnpreemptedLookup(c: Config, numCpuBlocks: nat, steps: seq<Step>, i: SeqId)
    requires IsRun(c, numCpuBlocks, steps) && i < |PromptLens(steps)| && Admissions(c, numCpuBlocks, steps, i) == 1
    requires Decode(c, Generate(c, numCpuBlocks, steps).value.state).Done?
    requires i in Decode(c, Generate(c, numCpuBlocks, steps).value.state).value.0.engine.tables
    ensures var s := Decode(c, Generate(c, numCpuBlocks, steps).value.state).value.0;
            LookupOk(c, s, i) <==> PromptLens(steps)[i] % c.blockSize != 0 || Len(s.seqs, i) % c.blockSize == 0
  {
    hide Decode, Generate, History, LookupOk, Admissions;
    RunLookups(c, numCpuBlocks, steps, i);
    AdmittedOnce(c, numCpuBlocks, steps, i);
  }
}
