/** Groups of one sequence: no panic after admission, no sharing, exact table lengths. */
module SingleSequence {
  import opened Outcomes
  import opened Pools
  import opened Engine
  import opened EngineLaws
  import opened AppendLaws
  import opened MemoryOps
  import opened StepInvariant
  import opened Scheduler
  import opened ScheduleSafety
  import opened ScheduleTheorem
  import opened QueueOrder

  /** No block has two references: no two table entries name the same block. */
  ghost predicate Exclusive(tables: Tables) {
    forall b :: References(tables)[b] <= 1
  }

  ghost predicate NoEmptyTable(tables: Tables) {
    forall i :: i in tables ==> tables[i] != []
  }

  /** One more block for every sequence of `done` whose last logical block is full; no other change. */
  ghost predicate Lengths(c: Config, own: Owner, seqs: map<SeqId, Sequence>, before: Tables, tables: Tables,
                          done: set<nat>) {
    forall i :: i in tables ==>
      && i in before && i in own && before[i] <= tables[i]
      && |tables[i]| == |before[i]| + if own[i] in done && LastBlockFull(c.blockSize, Len(seqs, i)) then 1 else 0
  }

  ghost predicate SinglePass(c: Config, own: Owner, before: Tables, s: State, kept: seq<Group>, hand: seq<Group>) {
    && AllSingle(s.running) && AllSingle(kept) && AllSingle(hand) && s.swappedOut == []
    && Exclusive(s.engine.tables) && NoEmptyTable(s.engine.tables)
    && Lengths(c, own, s.seqs, before, s.engine.tables, Ids(kept))
  }

  lemma {:induction false} FewerReferences(tables: Tables, gone: set<SeqId>, b: Block)
    ensures References(tables - gone)[b] <= References(tables)[b]
    decreases |tables|
  {
    if s :| s in gone && s in tables {
      ReferencesSplit(tables, s);
      FewerReferences(tables - {s}, gone, b);
      assert tables - {s} - gone == tables - gone;
    } else {
      assert tables - gone == tables;
    }
  }

  lemma FreeSingle(c: Config, own: Owner, before: Tables, e: Engine, seqs: map<SeqId, Sequence>, done: set<nat>,
                   ids: seq<SeqId>)
    requires Consistent(e) && NoDup(ids) && (forall s :: s in ids ==> s in e.tables)
    requires Exclusive(e.tables) && NoEmptyTable(e.tables) && Lengths(c, own, seqs, before, e.tables, done)
    ensures FreeGroup(e, ids).Done?
    ensures var tables := FreeGroup(e, ids).value.tables;
            Exclusive(tables) && NoEmptyTable(tables) && Lengths(c, own, seqs, before, tables, done)
  {
    hide Consistent, References, FreeGroup;
    FreeGroupLaw(e, ids);
    forall b ensures References(FreeGroup(e, ids).value.tables)[b] <= 1 {
      FewerReferences(e.tables, (set s | s in ids), b);
    }
  }

  /** The only sequence of a group gets its slot without a copy, given the guard. */
  lemma AppendSingle(c: Config, own: Owner, before: Tables, s: State, done: set<nat>, g: Group,
                     copies: map<nat, seq<nat>>)
    requires |g.seqs| == 1 && GroupIs(own, g.seqs, g.id) && g.id !in done && g.seqs[0] in s.seqs
    requires Consistent(s.engine) && g.seqs[0] in s.engine.tables && Placed(own, s.engine.tables, {})
    requires Exclusive(s.engine.tables) && NoEmptyTable(s.engine.tables)
    requires Lengths(c, own, s.seqs, before, s.engine.tables, done) && CanAppend(c, s, g)
    ensures AppendGroup(s.engine, g.seqs, FullSeqs(c, s.seqs), copies).Done?
    ensures var (e, copies') := AppendGroup(s.engine, g.seqs, FullSeqs(c, s.seqs), copies).value;
            && copies' == copies && Exclusive(e.tables) && NoEmptyTable(e.tables)
            && Lengths(c, own, s.seqs, before, e.tables, done + {g.id})
  {
    hide Consistent, References, AppendSlot;
    var i, full := g.seqs[0], FullSeqs(c, s.seqs);
    assert g.seqs == [i] && i in g.seqs;
    assert BlocksToAppend([i], full) == if i in full then 1 else 0;
    var table := s.engine.tables[i];
    var last := Last(table);
    assert last in table;
    TableBlockLive(s.engine, i, last);
    CountIs(s.engine, last);
    AppendSlotLaw(s.engine, i, i in full);
    var (e, op) := AppendSlot(s.engine, i, i in full).value;
    assert op.None?;
    assert AppendGroup(s.engine, [i], full, copies) == Done((e, copies)) by {
      assert [i][1..] == [];
    }
    assert Exclusive(e.tables);
    assert i in full <==> LastBlockFull(c.blockSize, Len(s.seqs, i));
  }

  lemma SetStatusLengths(c: Config, own: Owner, seqs: map<SeqId, Sequence>, before: Tables, tables: Tables,
                         done: set<nat>, g: Group, status: Status)
    requires Lengths(c, own, seqs, before, tables, done)
    ensures Lengths(c, own, SetStatus(seqs, g, status), before, tables, done)
  {
    SetStatusKeys(seqs, g, status);
  }

  lemma PreemptKeepsSingle(c: Config, own: Owner, before: Engine, s: State, plan: Plan, kept: seq<Group>,
                           rest: seq<Group>, v: Group, swapOut: map<nat, nat>, copies: map<nat, seq<nat>>)
    requires PassOk(own, before, s, plan, kept, rest + [v], swapOut, copies)
    requires SinglePass(c, own, before.tables, s, kept, rest + [v])
    ensures Preempt(s, v, swapOut).Done?
    ensures SinglePass(c, own, before.tables, Preempt(s, v, swapOut).value.0, kept, rest)
  {
    hide StepOk, FreeGroup, SetStatus, Lengths, Exclusive, NoEmptyTable, IsInverse, IsCopyInverse, Slotted;
    assert v in rest + [v];
    assert forall h :: h in rest ==> h in rest + [v];
    HandLast(own, s, kept, rest, v);
    var live := Ids(kept) + Ids(rest + [v]) + Ids(s.running) + Ids(s.swappedOut);
    var todo := Ids(rest + [v]) + Ids(s.running);
    GroupInTables(own, before, s.engine, plan, live, Ids(s.swappedOut), todo, v);
    FreeSingle(c, own, before.tables, s.engine, s.seqs, Ids(kept), v.seqs);
    SetStatusLengths(c, own, s.seqs, before.tables, FreeGroup(s.engine, v.seqs).value.tables, Ids(kept), v, Waiting);
  }

  /** Freeing a sequence with a block of its own leaves a GPU block free. */
  lemma FreeLeavesBlock(e: Engine, ids: seq<SeqId>, i: SeqId)
    requires Consistent(e) && NoDup(ids) && (forall s :: s in ids ==> s in e.tables) && i in ids
    requires Exclusive(e.tables) && e.tables[i] != [] && e.tables[i][0].dev.Gpu?
    ensures FreeGroup(e, ids).Done? && FreeGroup(e, ids).value.pools.gpuFree != []
  {
    hide FreeGroup, References, NoDup;
    FreeGroupLaw(e, ids);
    var e' := FreeGroup(e, ids).value;
    var b := e.tables[i][0];
    TableBlockLive(e, i, b);
    if b in References(e'.tables) {
      InReferences(e'.tables, b);
      var t :| t in e'.tables && b in e'.tables[t];
      var j :| 0 <= j < |e.tables[t]| && e.tables[t][j] == b;
      CountedOnceIsExclusive(e, i, 0, t, j);
      CountIs(e, b);
    }
    CountIs(e', b);
    assert b in e'.pools.FreeList(Gpu);
  }

  /** After one preemption any group of one sequence fits. */
  lemma RoomAfterPreempt(c: Config, own: Owner, before: Engine, s: State, plan: Plan, kept: seq<Group>,
                         rest: seq<Group>, v: Group, swapOut: map<nat, nat>, copies: map<nat, seq<nat>>, g: Group)
    requires PassOk(own, before, s, plan, kept, rest + [v], swapOut, copies)
    requires SinglePass(c, own, before.tables, s, kept, rest + [v]) && |g.seqs| == 1
    ensures Preempt(s, v, swapOut).Done? && CanAppend(c, Preempt(s, v, swapOut).value.0, g)
  {
    hide StepOk, FreeGroup, SetStatus, Lengths, Exclusive, IsInverse, IsCopyInverse, Slotted, FullSeqs;
    assert v in rest + [v];
    HandLast(own, s, kept, rest, v);
    var live := Ids(kept) + Ids(rest + [v]) + Ids(s.running) + Ids(s.swappedOut);
    GroupInTables(own, before, s.engine, plan, live, Ids(s.swappedOut), Ids(rest + [v]) + Ids(s.running), v);
    var i := v.seqs[0];
    assert i in v.seqs;
    assert s.engine.tables[i][0] in s.engine.tables[i];
    FreeLeavesBlock(s.engine, v.seqs, i);
    var s' := Preempt(s, v, swapOut).value.0;
    AtMostOne(g.seqs, FullSeqs(c, s'.seqs));
  }

  lemma AtMostOne(ids: seq<SeqId>, full: set<SeqId>)
    requires |ids| == 1
    ensures BlocksToAppend(ids, full) == if ids[0] in full then 1 else 0
  {
    assert ids[1..] == [];
  }

  lemma {:induction false} MakeRoomSingle(c: Config, own: Owner, before: Engine, s: State, plan: Plan,
                                          kept: seq<Group>, g: Group, swapOut: map<nat, nat>,
                                          copies: map<nat, seq<nat>>, preempted: seq<Group>)
    requires PassOk(own, before, s, plan, kept, [g], swapOut, copies)
    requires SinglePass(c, own, before.tables, s, kept, [g])
    ensures MakeRoom(c, s, g, swapOut, preempted).Done?
    ensures var room := MakeRoom(c, s, g, swapOut, preempted).value;
            && SinglePass(c, own, before.tables, room.state, kept, if room.selfPreempted then [] else [g])
            && (room.selfPreempted || CanAppend(c, room.state, g))
            && (room.selfPreempted <==> s.running == [] && !CanAppend(c, s, g))
    decreases |s.running|
  {
    hide PassOk, Preempt, CanAppend, Lengths, Exclusive, NoEmptyTable;
    if !CanAppend(c, s, g) {
      if s.running != [] {
        var v := s.running[|s.running| - 1];
        var s1 := s.(running := s.running[..|s.running| - 1]);
        TakeLast(own, before, s, plan, kept, g, swapOut, copies);
        assert [g] + [v] == [g, v];
        PreemptKeepsSingle(c, own, before, s1, plan, kept, [g], v, swapOut, copies);
        assert g in [g];
        RoomAfterPreempt(c, own, before, s1, plan, kept, [g], v, swapOut, copies, g);
        var plan1 := PreemptSafe(own, before, s1, plan, kept, [g], v, swapOut, copies);
        var (s2, swapOut') := Preempt(s1, v, swapOut).value;
        MakeRoomSingle(c, own, before, s2, plan1, kept, g, swapOut', copies, preempted + [v]);
      } else {
        assert [] + [g] == [g];
        PreemptKeepsSingle(c, own, before, s, plan, kept, [], g, swapOut, copies);
      }
    }
  }

  lemma KeepSingle(c: Config, own: Owner, before: Engine, s: State, plan: Plan, kept: seq<Group>, g: Group,
                   swapOut: map<nat, nat>, copies: map<nat, seq<nat>>)
    requires PassOk(own, before, s, plan, kept, [g], swapOut, copies)
    requires SinglePass(c, own, before.tables, s, kept, [g]) && CanAppend(c, s, g)
    ensures AppendGroup(s.engine, g.seqs, FullSeqs(c, s.seqs), copies).Done?
    ensures var (e, copies') := AppendGroup(s.engine, g.seqs, FullSeqs(c, s.seqs), copies).value;
            copies' == copies && SinglePass(c, own, before.tables, s.(engine := e), kept + [g], [])
  {
    hide StepOk, AppendGroup, Lengths, Exclusive, NoEmptyTable, CanAppend, FullSeqs, IsInverse, IsCopyInverse, Slotted;
    HandLast(own, s, kept, [], g) by { assert [] + [g] == [g]; }
    assert g in [g];
    assert g.seqs[0] in g.seqs;
    assert Ids(s.swappedOut) == {};
    var live := Ids(kept) + Ids([g]) + Ids(s.running) + Ids(s.swappedOut);
    assert g.id in Ids([g]);
    GroupInTables(own, before, s.engine, plan, live, {}, Ids([g]) + Ids(s.running), g);
    AppendSingle(c, own, before.tables, s, Ids(kept), g, copies);
    QueuePush(own, kept, g);
    assert forall h :: h in kept + [g] <==> h in kept || h == g;
  }

  /** The pass over the running queue never panics, copies nothing, and lengthens exactly the tables that are full. */
  lemma {:induction false} ProcessSingle(c: Config, own: Owner, before: Engine, s: State, plan: Plan, kept: seq<Group>,
                                         ops: Ops, preempted: seq<Group>)
    requires PassOk(own, before, s, plan, kept, [], ops.swapOut, ops.copies)
    requires SinglePass(c, own, before.tables, s, kept, [])
    ensures Process(c, s, kept, ops, preempted).Done?
    ensures var (s', ops', preempted') := Process(c, s, kept, ops, preempted).value;
            ops'.copies == ops.copies && SinglePass(c, own, before.tables, s'.(running := []), s'.running, [])
    decreases |s.running|
  {
    hide PassOk, MakeRoom, AppendGroup, Lengths, Exclusive, NoEmptyTable, CanAppend, FullSeqs;
    if s.running == [] {
      assert s.(running := kept).(running := []) == s;
    } else {
      var g := s.running[0];
      var s1 := s.(running := s.running[1..]);
      TakeFirst(own, before, s, plan, kept, ops.swapOut, ops.copies);
      MakeRoomSingle(c, own, before, s1, plan, kept, g, ops.swapOut, ops.copies, preempted);
      var plan1 := MakeRoomSafe(c, own, before, s1, plan, kept, g, ops.swapOut, ops.copies, preempted);
      var room := MakeRoom(c, s1, g, ops.swapOut, preempted).value;
      var ops1 := ops.(swapOut := room.swapOut);
      if room.selfPreempted {
        ProcessSingle(c, own, before, room.state, plan1, kept, ops1, room.preempted);
      } else {
        var full := FullSeqs(c, room.state.seqs);
        KeepSingle(c, own, before, room.state, plan1, kept, g, room.swapOut, ops.copies);
        var plan2 := KeepGroup(c, own, before, room.state, plan1, kept, g, room.swapOut, ops.copies, full);
        var (e, copies) := AppendGroup(room.state.engine, g.seqs, full, ops.copies).value;
        ProcessSingle(c, own, before, room.state.(engine := e), plan2, kept + [g], ops1.(copies := copies),
                      room.preempted);
      }
    }
  }

  /** Nothing keeps running exactly when nothing ran, or the only group that did preempts itself. */
  lemma ProcessEmptyIff(c: Config, own: Owner, before: Engine, s: State, plan: Plan)
    requires PassOk(own, before, s, plan, [], [], map[], map[]) && SinglePass(c, own, before.tables, s, [], [])
    ensures Process(c, s, [], NoMaps, []).Done?
    ensures Process(c, s, [], NoMaps, []).value.0.running == [] <==>
            s.running == [] || (|s.running| == 1 && !CanAppend(c, s.(running := []), s.running[0]))
  {
    hide PassOk, MakeRoom, AppendGroup, Lengths, Exclusive, NoEmptyTable, CanAppend, FullSeqs;
    ProcessSingle(c, own, before, s, plan, [], NoMaps, []);
    if s.running != [] {
      var g := s.running[0];
      var s1 := s.(running := s.running[1..]);
      TakeFirst(own, before, s, plan, [], map[], map[]);
      MakeRoomSingle(c, own, before, s1, plan, [], g, map[], map[], []);
      var plan1 := MakeRoomSafe(c, own, before, s1, plan, [], g, map[], map[], []);
      var room := MakeRoom(c, s1, g, map[], []).value;
      MakeRoomOrder(c, s1, g, map[], []);
      var ops1 := NoMaps.(swapOut := room.swapOut);
      if room.selfPreempted {
        ProcessOrder(c, room.state, [], ops1, room.preempted);
      } else {
        var (e, copies) := AppendGroup(room.state.engine, g.seqs, FullSeqs(c, room.state.seqs), map[]).value;
        assert [] + [g] == [g];
        assert Process(c, s, [], NoMaps, []) ==
               Process(c, room.state.(engine := e), [g], ops1.(copies := copies), room.preempted);
        ProcessOrder(c, room.state.(engine := e), [g], ops1.(copies := copies), room.preempted);
      }
    }
  }

  lemma OneIsSorted(c: Config, s: State)
    ensures |LatestFirst(s.running)| == |s.running|
    ensures |s.running| == 1 ==> LatestFirst(s.running) == s.running
    ensures |s.running| == 1 ==>
              (CanAppend(c, s.(running := []), s.running[0]) <==> CanAppend(c, s, s.running[0]))
  {
    LatestFirstDescending(s.running);
    if |s.running| == 1 {
      assert LatestFirst(s.running)[0] in LatestFirst(s.running);
    }
  }

  // ----- Whole steps

  /** A state all of whose groups have one sequence, with no block referenced twice. */
  ghost predicate SingleOk(own: Owner, s: State) {
    && SchedulerOk(own, s) && AllSingle(s.running) && s.swappedOut == []
    && Exclusive(s.engine.tables) && NoEmptyTable(s.engine.tables)
  }

  /**
   Outside admission a step cannot panic: the empty-pool `unwrap`, the missing last block and the double free are
   unreachable. It emits no memory operation, and each table grows by one block exactly when its sequence runs on
   and its last logical block is full.
   */
  lemma DecodeSingle(c: Config, own: Owner, s: State)
    requires SingleOk(own, s)
    ensures Decode(c, s).Done?
    ensures var (s', out) := Decode(c, s).value;
            && SingleOk(own, s') && out == Output(s'.running, NoMaps, [])
            && Lengths(c, own, s.seqs, s.engine.tables, s'.engine.tables, Ids(s'.running))
            && (forall i :: i in s'.engine.tables <==> i in own && own[i] in Ids(s'.running))
            && (forall i :: i in s.seqs <==> i in s'.seqs)
            && (forall i :: i in s.seqs ==> s'.seqs[i].len == s.seqs[i].len)
            && (s'.running == [] <==> s.running == [] || (|s.running| == 1 && !CanAppend(c, s, s.running[0])))
  {
    hide SchedulerOk, PassOk, Process, LatestFirst, Exclusive, NoEmptyTable, Slotted, Keeps, CanAppend;
    StepStarts(own, s);
    LatestFirstDescending(s.running);
    var s0 := s.(running := LatestFirst(s.running));
    assert Lengths(c, own, s.seqs, s.engine.tables, s.engine.tables, Ids([])) by { OwnedTables(own, s); }
    ProcessSingle(c, own, s.engine, s0, NoOps, [], NoMaps, []);
    ProcessOrder(c, s0, [], NoMaps, []);
    ProcessLens(c, s0, [], NoMaps, []);
    ProcessEmptyIff(c, own, s.engine, s0, NoOps);
    OneIsSorted(c, s);
    var (s1, ops, preempted) := Process(c, s0, [], NoMaps, []).value;
    LatestFirstDescending([]);
    assert s1.(swappedOut := []) == s1;
    var plan := DecodeSafe(c, own, s);
    assert Decode(c, s) == Done((s1, Output(s1.running, NoMaps, [])));
    OwnedTables(own, s1);
    SameLens(c, own, s.seqs, s1.seqs, s.engine.tables, s1.engine.tables, Ids(s1.running));
  }

  lemma OwnedTables(own: Owner, s: State)
    requires SchedulerOk(own, s)
    ensures forall i :: i in s.engine.tables ==> i in own
    ensures s.swappedOut == [] ==> forall i :: i in s.engine.tables <==> i in own && own[i] in Ids(s.running)
  {
    hide Consistent, NoSharing, Placed;
  }

  lemma SameLens(c: Config, own: Owner, seqs: map<SeqId, Sequence>, seqs': map<SeqId, Sequence>, before: Tables,
                 tables: Tables, done: set<nat>)
    requires Lengths(c, own, seqs', before, tables, done)
    requires (forall i :: i in seqs <==> i in seqs') && (forall i :: i in seqs ==> seqs'[i].len == seqs[i].len)
    ensures Lengths(c, own, seqs, before, tables, done)
  {
  }

  // ----- A step changes statuses only, never lengths

  ghost predicate SameTokens(seqs: map<SeqId, Sequence>, seqs': map<SeqId, Sequence>) {
    (forall i :: i in seqs <==> i in seqs') && (forall i :: i in seqs ==> seqs'[i].len == seqs[i].len)
  }

  lemma PreemptLens(s: State, g: Group, swapOut: map<nat, nat>)
    requires Preempt(s, g, swapOut).Done?
    ensures SameTokens(s.seqs, Preempt(s, g, swapOut).value.0.seqs)
  {
    SetStatusKeys(s.seqs, g, Waiting);
    SetStatusKeys(s.seqs, g, Status.Swapped);
    SetStatusKeys(s.seqs, g, FinishedAborted);
  }

  lemma {:induction false} MakeRoomLens(c: Config, s: State, g: Group, swapOut: map<nat, nat>, preempted: seq<Group>)
    requires MakeRoom(c, s, g, swapOut, preempted).Done?
    ensures SameTokens(s.seqs, MakeRoom(c, s, g, swapOut, preempted).value.state.seqs)
    decreases |s.running|
  {
    hide Preempt, CanAppend;
    if !CanAppend(c, s, g) {
      if s.running != [] {
        var v := s.running[|s.running| - 1];
        var s1 := s.(running := s.running[..|s.running| - 1]);
        PreemptLens(s1, v, swapOut);
        var (s2, swapOut') := Preempt(s1, v, swapOut).value;
        MakeRoomLens(c, s2, g, swapOut', preempted + [v]);
      } else {
        PreemptLens(s, g, swapOut);
      }
    }
  }

  lemma {:induction false} ProcessLens(c: Config, s: State, kept: seq<Group>, ops: Ops, preempted: seq<Group>)
    requires Process(c, s, kept, ops, preempted).Done?
    ensures SameTokens(s.seqs, Process(c, s, kept, ops, preempted).value.0.seqs)
    decreases |s.running|
  {
    hide MakeRoom, AppendGroup, FullSeqs;
    if s.running != [] {
      var g := s.running[0];
      var s1 := s.(running := s.running[1..]);
      MakeRoomLens(c, s1, g, ops.swapOut, preempted);
      var room := MakeRoom(c, s1, g, ops.swapOut, preempted).value;
      var ops1 := ops.(swapOut := room.swapOut);
      if room.selfPreempted {
        ProcessLens(c, room.state, kept, ops1, room.preempted);
      } else {
        var (e, copies) := AppendGroup(room.state.engine, g.seqs, FullSeqs(c, room.state.seqs), ops.copies).value;
        ProcessLens(c, room.state.(engine := e), kept + [g], ops1.(copies := copies), room.preempted);
      }
    }
  }
}
