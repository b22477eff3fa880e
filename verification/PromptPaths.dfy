/** Which of the two input preparations an iteration of a run takes, from the history of its front sequence. */
module PromptPaths {
  import opened Outcomes
  import opened Pools
  import opened Engine
  import opened Scheduler
  import opened StepInvariant
  import opened ScheduleSafety
  import opened ScheduleTheorem
  import opened QueueOrder
  import opened SingleSequence
  import opened Runs
  import opened Generation
  import opened RunHistory
  import opened CacheRuns

  /** A scheduled sequence gains a token or its group finishes; finished groups stay so. */
  ghost predicate Gained(w: World, w': World, batch: seq<Group>) {
    && w'.own == w.own && w.finished <= w'.finished
    && (forall i :: InBatch(batch, i) ==>
          i in w.own && (w.own[i] in w'.finished || Len(w'.state.seqs, i) == Len(w.state.seqs, i) + 1))
  }

  lemma IterationGains(c: Config, numCpuBlocks: nat, w: World, admitted: map<SeqId, nat>, stop: set<SeqId>)
    requires GenerationOk(c, numCpuBlocks, w, admitted) && Iterate(c, w, stop).Done?
    ensures Schedule(c, w.state).Done?
    ensures Gained(w, Iterate(c, w, stop).value, Schedule(c, w.state).value.1.scheduled)
  {
    hide WorldOk, Schedule, LookupOk, InBatch, Unfinished, Numbered, LengthsOk, ReadyToSample, AdmittedBatch,
         GroupFinished;
    var (s, out) := Schedule(c, w.state).value;
    ScheduleReady(c, numCpuBlocks, w, admitted);
    AfterSchedule(c, numCpuBlocks, w, admitted);
    ScheduleEventOk(c, numCpuBlocks, w);
    WorldParts(c, numCpuBlocks, w.(state := s));
    var seqs' := Sampled(s.seqs, out.scheduled, stop);
    var w' := Iterate(c, w, stop).value;
    assert w'.state.seqs == seqs' && w'.finished == w.finished + FinishedIds(seqs', s.running);
    ScheduledRuns(c, numCpuBlocks, w, admitted);
    forall i | InBatch(out.scheduled, i)
      ensures i in w.own && (w.own[i] in w'.finished || Len(w'.state.seqs, i) == Len(w.state.seqs, i) + 1)
    {
      assert InBatch(s.running, i);
      RunningKnown(w.own, s, i);
      if i in stop {
        StoppedGroup(w.own, s, out.scheduled, stop, i);
      }
    }
  }

  lemma ScheduledRuns(c: Config, numCpuBlocks: nat, w: World, admitted: map<SeqId, nat>)
    requires GenerationOk(c, numCpuBlocks, w, admitted) && Schedule(c, w.state).Done?
    ensures var (s, out) := Schedule(c, w.state).value; forall i :: InBatch(out.scheduled, i) ==> InBatch(s.running, i)
  {
    hide WorldOk, Admit, Decode, SchedulerOk, PoolBounded, Exclusive, NoEmptyTable;
    WorldParts(c, numCpuBlocks, w);
    TablesNotEmpty(c, numCpuBlocks, w, admitted);
    AdmitSafe(c, w.own, w.state, [], []);
    var (s1, scheduled, ignored) := Admit(c, w.state, [], []).value;
    assert scheduled[0..] == scheduled;
    if scheduled == [] {
      NothingAdmitted(c, w.state);
      DecodeSingle(c, w.own, w.state);
    }
  }

  lemma RunningKnown(own: Owner, s: State, i: SeqId)
    requires SchedulerOk(own, s) && InBatch(s.running, i)
    ensures i in own && i in s.seqs
  {
    hide Consistent, NoSharing, Placed;
    var g :| g in s.running && i in g.seqs;
    assert GroupOk(own, g);
  }

  lemma StoppedGroup(own: Owner, s: State, batch: seq<Group>, stop: set<SeqId>, i: SeqId)
    requires SchedulerOk(own, s) && AllSingle(s.running) && InBatch(s.running, i) && InBatch(batch, i)
    requires i in stop && i in s.seqs && i in own
    ensures own[i] in FinishedIds(Sampled(s.seqs, batch, stop), s.running)
  {
    hide Consistent, NoSharing, Placed, Sampled, GroupFinished, Unfinished;
    var seqs' := Sampled(s.seqs, batch, stop);
    var g :| g in s.running && i in g.seqs;
    assert GroupOk(own, g) && |g.seqs| == 1 && g.id == own[i];
    StoppedGroupFinished(s.seqs, batch, stop, g, i);
    UnfinishedOk(own, seqs', s.running);
    forall h | h in Unfinished(seqs', s.running) ensures h.id != g.id {
      assert h in s.running && !GroupFinished(seqs', h);
      assert h != g;
    }
  }

  /** A sequence that has been admitted is finished or has more tokens than its prompt. */
  lemma {:induction false} PastPromptOrFinished(c: Config, numCpuBlocks: nat, steps: seq<Step>, i: SeqId)
    requires IsRun(c, numCpuBlocks, steps) && i in History(c, numCpuBlocks, steps)
    ensures var w := Generate(c, numCpuBlocks, steps).value;
            && i in w.own && i < |PromptLens(steps)|
            && (w.own[i] in w.finished || Len(w.state.seqs, i) > PromptLens(steps)[i])
    decreases |steps|
  {
    hide GenerationOk, AdmittedBatch, InBatch, Iterate, Schedule, PromptLens, History;
    if steps == [] {
      NoneAdmitted(c, numCpuBlocks, i);
    } else {
      var n := |steps| - 1;
      var init := steps[..n];
      Shorter(c, numCpuBlocks, steps);
      var w, admitted := Generate(c, numCpuBlocks, init).value, History(c, numCpuBlocks, init);
      RunIsOk(c, numCpuBlocks, init);
      LensOfStep(steps);
      if steps[n].Prompt? {
        SameHistory(c, numCpuBlocks, steps);
        PastPromptOrFinished(c, numCpuBlocks, init, i);
        assert Generate(c, numCpuBlocks, steps) == Done(Request(w, steps[n].len, steps[n].arrival));
        GenerationParts(c, numCpuBlocks, w, admitted);
        assert i < w.nextSeq;
      } else {
        LastStep(c, numCpuBlocks, steps);
        IterationGains(c, numCpuBlocks, w, admitted, steps[n].stop);
        AfterSchedule(c, numCpuBlocks, w, admitted);
        LensGrow(c, numCpuBlocks, w, admitted, steps[n].stop, i);
        AdmittedBefore(c, numCpuBlocks, steps, i);
        var batch := AdmittedBatch(c, w.state);
        if InBatch(batch, i) {
          NotEmptyBatch(batch, i);
          BatchKnown(c, numCpuBlocks, w, admitted, i);
          GenerationParts(c, numCpuBlocks, w, admitted);
          AdmittedOnce(c, numCpuBlocks, init, i);
          AtLeastPrompt(c, numCpuBlocks, init, i);
        } else {
          PastPromptOrFinished(c, numCpuBlocks, init, i);
        }
      }
    }
  }

  lemma LensOfStep(steps: seq<Step>)
    requires steps != []
    ensures var before := PromptLens(steps[..|steps| - 1]); |before| <= |PromptLens(steps)|
    ensures var before := PromptLens(steps[..|steps| - 1]);
            forall i :: 0 <= i < |before| ==> PromptLens(steps)[i] == before[i]
    ensures steps[|steps| - 1].Iteration? ==> PromptLens(steps) == PromptLens(steps[..|steps| - 1])
  {
  }

  lemma SameHistory(c: Config, numCpuBlocks: nat, steps: seq<Step>)
    requires steps != [] && steps[|steps| - 1].Prompt?
    ensures History(c, numCpuBlocks, steps) == History(c, numCpuBlocks, steps[..|steps| - 1])
  {
    hide Generate, AdmittedBatch;
  }

  lemma AdmittedBefore(c: Config, numCpuBlocks: nat, steps: seq<Step>, i: SeqId)
    requires steps != [] && i in History(c, numCpuBlocks, steps)
    requires Generate(c, numCpuBlocks, steps[..|steps| - 1]).Done?
    ensures var init := steps[..|steps| - 1];
            || i in History(c, numCpuBlocks, init)
            || InBatch(AdmittedBatch(c, Generate(c, numCpuBlocks, init).value.state), i)
  {
    hide Generate, AdmittedBatch, InBatch;
  }

  /**
   In every run, an iteration that admits groups takes the prompt path exactly when the first of them has never been
   admitted before. So after a preemption all that is admitted with the group goes unwritten but for last positions.
   */
  lemma PromptPathIff(c: Config, numCpuBlocks: nat, steps: seq<Step>)
    requires IsRun(c, numCpuBlocks, steps)
    requires AdmittedBatch(c, Generate(c, numCpuBlocks, steps).value.state) != []
    ensures var s := Generate(c, numCpuBlocks, steps).value.state;
            var batch := AdmittedBatch(c, s);
            && batch[0].seqs != []
            && (PromptPath(PromptLens(steps), s, batch) <==> batch[0].seqs[0] !in History(c, numCpuBlocks, steps))
            && (PromptPath(PromptLens(steps), s, batch) <==> Admissions(c, numCpuBlocks, steps, batch[0].seqs[0]) == 0)
  {
    hide Generate, AdmittedBatch, GenerationOk, History, Admissions, PromptLens, InBatch, IsRun;
    RunIsOk(c, numCpuBlocks, steps);
    var w, admitted := Generate(c, numCpuBlocks, steps).value, History(c, numCpuBlocks, steps);
    var g := AdmittedBatch(c, w.state)[0];
    AdmittedNotEmpty(c, numCpuBlocks, w, admitted, g);
    var i := g.seqs[0];
    FrontWaits(c, numCpuBlocks, w, admitted, g);
    AdmittedOnce(c, numCpuBlocks, steps, i);
    EverAdmitted(c, numCpuBlocks, steps, i);
    if i in admitted {
      PastPromptOrFinished(c, numCpuBlocks, steps, i);
    }
  }

  lemma FrontWaits(c: Config, numCpuBlocks: nat, w: World, admitted: map<SeqId, nat>, g: Group)
    requires GenerationOk(c, numCpuBlocks, w, admitted) && g in AdmittedBatch(c, w.state)
    ensures forall i :: i in g.seqs ==> i in w.own && i < w.nextSeq && w.own[i] !in w.finished
  {
    hide Admit, PoolBounded, WorldOk, SchedulerOk;
    TablesNotEmpty(c, numCpuBlocks, w, admitted);
    WorldParts(c, numCpuBlocks, w);
    AdmitSafe(c, w.own, w.state, [], []);
    var batch := Admit(c, w.state, [], []).value.1;
    assert batch[0..] == batch;
    assert g in w.state.waiting;
    WaitingUnfinished(c, numCpuBlocks, w, g);
  }

  lemma WaitingUnfinished(c: Config, numCpuBlocks: nat, w: World, g: Group)
    requires WorldOk(c, numCpuBlocks, w) && g in w.state.waiting
    ensures forall i :: i in g.seqs ==> i in w.own && i < w.nextSeq && w.own[i] !in w.finished
  {
    hide Consistent, NoSharing, Placed, NewPools, NumSeqs, Exclusive, AllSingle;
    assert GroupOk(w.own, g) && g.id in Ids(w.state.waiting);
  }

  /** The record has a sequence exactly when it has been admitted at all. */
  lemma {:induction false} EverAdmitted(c: Config, numCpuBlocks: nat, steps: seq<Step>, i: SeqId)
    requires IsRun(c, numCpuBlocks, steps)
    ensures i in History(c, numCpuBlocks, steps) <==> Admissions(c, numCpuBlocks, steps, i) > 0
    decreases |steps|
  {
    hide Generate, AdmittedBatch, GenerationOk, InBatch, History, AdmittedAt, IsRun;
    if steps == [] {
      NoneAdmitted(c, numCpuBlocks, i);
    } else {
      Shorter(c, numCpuBlocks, steps);
      EverAdmitted(c, numCpuBlocks, steps[..|steps| - 1], i);
      if AdmittedAt(c, numCpuBlocks, steps, |steps| - 1, i) {
        NewRecord(c, numCpuBlocks, steps, i);
      } else {
        SameRecord(c, numCpuBlocks, steps, i);
      }
    }
  }
}
