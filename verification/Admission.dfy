/** Admission of groups of one sequence: exact panic condition, new tables, the bound on running sequences. */
module Admission {
  import opened Outcomes
  import opened Engine
  import opened EngineLaws
  import opened StepInvariant
  import opened Scheduler
  import opened ScheduleSafety
  import opened ScheduleTheorem
  import opened QueueOrder
  import opened SingleSequence

  /** The verdict `can_allocate` is meant to give. */
  function IntendedVerdict(required: nat, free: nat, total: nat): AllocStatus {
    if required > total then Impossible else if required > free then Later else Ok
  }

  /** The comparison as written agrees with the intended verdict exactly under this condition on the pool. */
  lemma VerdictAgreesIff(c: Config, s: State, g: Group)
    requires |s.engine.pools.gpuFree| <= c.numGpuBlocks
    ensures var required, free := TotalLogicalBlocks(c, s.seqs, g.seqs), |s.engine.pools.gpuFree|;
            CanAllocate(c, s, g) == IntendedVerdict(required, free, c.numGpuBlocks) <==>
            required > c.numGpuBlocks || (required > free <==> required < c.numGpuBlocks - free)
  {
  }

  /**
   When the admission loop looks at a group and does not stop, it panics exactly when the group needs more blocks than
   are free. `Impossible` groups always panic.
   */
  lemma AdmissionPanicsIff(c: Config, own: Owner, s: State, scheduled: seq<Group>, ignored: seq<Group>)
    requires SchedulerOk(own, s) && PoolBounded(c, s.engine) && s.waiting != []
    requires c.maxNumSeqs != NumSeqs(s.running) + 1 && !CanAllocate(c, s, s.waiting[0]).Later?
    ensures var g := s.waiting[0];
            var n := TotalLogicalBlocks(c, s.seqs, g.seqs);
            && (n > |s.engine.pools.gpuFree| ==> Admit(c, s, scheduled, ignored).Panic?)
            && (n <= |s.engine.pools.gpuFree| ==>
                  && CanAllocate(c, s, g).Ok? && Allocate(s.engine, g.seqs, n).Done?
                  && Admit(c, s, scheduled, ignored)
                     == Admit(c, s.(waiting := s.waiting[1..], running := s.running + [g],
                                    engine := Allocate(s.engine, g.seqs, n).value,
                                    seqs := SetStatus(s.seqs, g, Running)),
                              scheduled + [g], ignored))
  {
    hide Consistent, GroupOk, Allocate, SetStatus, TotalLogicalBlocks;
    var g := s.waiting[0];
    assert |g.seqs| == 1;
    assert g.seqs == [g.seqs[0]];
    QueueFirst(own, s.waiting);
    assert GroupIs(own, g.seqs, g.id) by { assert GroupOk(own, g); }
    assert g.seqs[0] in g.seqs;
    AllocateLaw(s.engine, g.seqs[0], TotalLogicalBlocks(c, s.seqs, g.seqs));
    FreeBelowTotal(c, s.engine);
    SetStatusKeys(s.seqs, g, FinishedIgnored);
    SameLengths(c, s.seqs, SetStatus(s.seqs, g, FinishedIgnored), g.seqs);
  }

  lemma {:induction false} NumSeqsSingle(q: seq<Group>)
    requires AllSingle(q)
    ensures NumSeqs(q) == |q|
    decreases |q|
  {
    if q != [] {
      SingleParts(q);
      NumSeqsSingle(q[1..]);
    }
  }

  /** The new tables of admitted sequences hold one block per logical block. */
  ghost predicate NewTables(c: Config, s: State, s': State, admitted: seq<Group>) {
    forall g, i :: g in admitted && i in g.seqs ==>
      i in s'.engine.tables && |s'.engine.tables[i]| == LogicalBlocks(c.blockSize, Len(s.seqs, i))
  }

  lemma AllocateExclusive(e: Engine, i: SeqId, n: nat)
    requires Consistent(e) && i !in e.tables && Exclusive(e.tables) && Allocate(e, [i], n).Done?
    ensures Exclusive(Allocate(e, [i], n).value.tables)
  {
    hide Consistent, References, Allocate;
    AllocateLaw(e, i, n);
    var e' := Allocate(e, [i], n).value;
    ReferencesUpdate(e.tables, i, e'.tables[i]);
    assert e.tables - {i} == e.tables;
    forall b ensures References(e'.tables)[b] <= 1 {
      NoDupCount(e'.tables[i], b);
    }
  }

  lemma {:induction false} AdmitSingle(c: Config, own: Owner, s: State, scheduled: seq<Group>, ignored: seq<Group>)
    requires SchedulerOk(own, s) && PoolBounded(c, s.engine) && AllSingle(s.running)
    requires Exclusive(s.engine.tables)
    requires Admit(c, s, scheduled, ignored).Done?
    ensures var (s', scheduled', _) := Admit(c, s, scheduled, ignored).value;
            && scheduled <= scheduled' && AllSingle(s'.running) && Exclusive(s'.engine.tables)
            && NewTables(c, s, s', scheduled'[|scheduled|..])
            && (c.maxNumSeqs > 0 && |s.running| < c.maxNumSeqs ==> |s'.running| < c.maxNumSeqs)
    decreases |s.waiting|
  {
    hide SchedulerOk, Allocate, PoolBounded, SetStatus, CanAllocate, Exclusive, NewTables, AllSingle;
    var (s', scheduled', ignored') := Admit(c, s, scheduled, ignored).value;
    if s.waiting == [] || c.maxNumSeqs == NumSeqs(s.running) + 1 || CanAllocate(c, s, s.waiting[0]).Later? {
      assert scheduled'[|scheduled|..] == [];
      NoNewTables(c, s);
    } else {
      AdmissionPanicsIff(c, own, s, scheduled, ignored);
      var g := s.waiting[0];
      var n := TotalLogicalBlocks(c, s.seqs, g.seqs);
      var e := Allocate(s.engine, g.seqs, n).value;
      var s1 := s.(waiting := s.waiting[1..], running := s.running + [g], engine := e,
                   seqs := SetStatus(s.seqs, g, Running));
      AdmitGroup(own, s, n);
      SamePoolBound(c, s.engine, e);
      FrontIsNew(own, s);
      assert g.seqs == [g.seqs[0]];
      AllocateExclusive(s.engine, g.seqs[0], n);
      assert AllSingle(s1.running) by { SinglePush(s.running, g); }
      NumSeqsSingle(s.running);
      AdmitSingle(c, own, s1, scheduled + [g], ignored);
      AdmitSafe(c, own, s1, scheduled + [g], ignored);
      NewTablesCons(c, s, s1, s', g, scheduled, scheduled');
    }
  }

  lemma SinglePush(q: seq<Group>, g: Group)
    requires AllSingle(q) && |g.seqs| == 1
    ensures AllSingle(q + [g])
  {
  }

  lemma NoNewTables(c: Config, s: State)
    ensures NewTables(c, s, s, [])
  {
  }

  lemma FrontIsNew(own: Owner, s: State)
    requires SchedulerOk(own, s) && s.waiting != []
    ensures |s.waiting[0].seqs| == 1 && s.waiting[0].seqs[0] !in s.engine.tables && Consistent(s.engine)
  {
    hide Consistent, NoSharing, Placed;
    var g := s.waiting[0];
    assert g in s.waiting && g.id in Ids(s.waiting);
    assert GroupOk(own, g);
    assert g.seqs[0] in g.seqs;
  }

  lemma NewTablesCons(c: Config, s: State, s1: State, s': State, g: Group, scheduled: seq<Group>,
                      scheduled': seq<Group>)
    requires |g.seqs| == 1 && s1.seqs == SetStatus(s.seqs, g, Running)
    requires g.seqs[0] in s1.engine.tables && |s1.engine.tables[g.seqs[0]]| == TotalLogicalBlocks(c, s.seqs, g.seqs)
    requires scheduled + [g] <= scheduled' && NewTables(c, s1, s', scheduled'[|scheduled + [g]|..])
    requires Admitted(s1, s', scheduled'[|scheduled + [g]|..])
    ensures scheduled <= scheduled' && NewTables(c, s, s', scheduled'[|scheduled|..])
  {
    hide SetStatus;
    SetStatusKeys(s.seqs, g, Running);
    var more := scheduled'[|scheduled + [g]|..];
    assert scheduled'[|scheduled|] == (scheduled + [g])[|scheduled|] == g;
    assert scheduled'[|scheduled|..] == [g] + more;
    assert scheduled <= scheduled + [g] <= scheduled';
    assert TotalLogicalBlocks(c, s.seqs, g.seqs) == LogicalBlocks(c.blockSize, Len(s.seqs, g.seqs[0])) by {
      assert g.seqs[1..] == [];
    }
    forall h, i | h in [g] + more && i in h.seqs
      ensures i in s'.engine.tables && |s'.engine.tables[i]| == LogicalBlocks(c.blockSize, Len(s.seqs, i))
    {
      assert Len(s1.seqs, i) == Len(s.seqs, i);
      if h == g {
        assert i == g.seqs[0];
      }
    }
  }
}
