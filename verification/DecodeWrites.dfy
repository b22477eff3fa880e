/**
 Which block of a table a decode step writes, and whether anyone else sees it, for groups of any size. The slot append
 makes the last block of a sequence private; the token is written at the position of the last token, which is another
 block when the last logical block is full.
 */
module DecodeWrites {
  import opened Outcomes
  import opened Pools
  import opened Engine
  import opened EngineLaws
  import opened AppendLaws
  import opened GroupCounts
  import opened MemoryOps
  import opened StepInvariant
  import opened Scheduler
  import opened QueueOrder
  import opened ScheduleSafety
  import opened ScheduleTheorem
  import opened SingleSequence
  import SwapInRoom

  /**
   On the tables before the step: entry `k` of sequence `i` will be referenced by nothing else. It is the new block, or
   the open end, or all other references to it are open ends of the group, which leave it for copies.
   */
  ghost predicate WillBePrivate(tables: Tables, ids: seq<SeqId>, full: set<SeqId>, i: SeqId, k: nat)
    requires i in tables
  {
    || k >= |tables[i]|
    || (i !in full && k == |tables[i]| - 1)
    || Occurrences(tables, ids, tables[i][k]) == OpenCount(tables, ids, full, tables[i][k]) + 1
  }

  /** For every entry of the group after the step: it is private exactly when the tables before the step say so. */
  ghost predicate PrivacyFollows(before: Tables, after: Tables, ids: seq<SeqId>, full: set<SeqId>) {
    && (forall i :: i in ids ==> i in before && i in after)
    && (forall i, k :: i in ids && 0 <= k < |after[i]| ==>
          (Occurrences(after, ids, after[i][k]) == 1 <==> WillBePrivate(before, ids, full, i, k)))
  }

  // ----- The appends of one group

  lemma AppendPrivateIff(e: Engine, ids: seq<SeqId>, full: set<SeqId>, copies: map<nat, seq<nat>>, i: SeqId, k: nat)
    requires Consistent(e) && NoDup(ids) && Closed(e.tables, ids) && AppendGroup(e, ids, full, copies).Done?
    requires i in ids && i in e.tables && i in AppendGroup(e, ids, full, copies).value.0.tables
    requires k < |AppendGroup(e, ids, full, copies).value.0.tables[i]|
    ensures var after := AppendGroup(e, ids, full, copies).value.0.tables;
            References(after)[after[i][k]] == 1 <==> WillBePrivate(e.tables, ids, full, i, k)
  {
    hide Consistent, References, NoDup, AppendGroup, Occurrences, OpenCount;
    AppendGroupLaw(e, ids, full, copies);
    var table, after := e.tables[i], AppendGroup(e, ids, full, copies).value.0.tables;
    if k < |after[i]| - 1 {
      var b := table[k];
      assert after[i][k] == b;
      TableBlockLive(e, i, b);
      AppendGroupCounts(e, ids, full, copies, b);
      AllReferencesInGroup(e.tables, ids, b);
      SettledEntry(e.tables, ids, full, i, k);
    }
  }

  lemma ClosedAfterAppend(e: Engine, ids: seq<SeqId>, full: set<SeqId>, copies: map<nat, seq<nat>>)
    requires Consistent(e) && NoDup(ids) && Closed(e.tables, ids) && AppendGroup(e, ids, full, copies).Done?
    ensures Closed(AppendGroup(e, ids, full, copies).value.0.tables, ids)
  {
    hide Consistent, References, NoDup, AppendGroup;
    AppendGroupLaw(e, ids, full, copies);
    var e' := AppendGroup(e, ids, full, copies).value.0;
    forall s, t, b | s in ids && t in e'.tables && b in e'.tables[s] && b in e'.tables[t] ensures t in ids {
      var k :| 0 <= k < |e'.tables[s]| && e'.tables[s][k] == b;
      if t !in ids {
        OutsideGroup(e, ids, full, copies, s, k, t);
      }
    }
  }

  lemma OutsideGroup(e: Engine, ids: seq<SeqId>, full: set<SeqId>, copies: map<nat, seq<nat>>, s: SeqId, k: nat,
                     t: SeqId)
    requires Consistent(e) && NoDup(ids) && Closed(e.tables, ids) && AppendGroup(e, ids, full, copies).Done?
    requires var tables := AppendGroup(e, ids, full, copies).value.0.tables;
             s in ids && s in tables && k < |tables[s]| && t in tables && t !in ids
    ensures var tables := AppendGroup(e, ids, full, copies).value.0.tables; tables[s][k] !in tables[t]
  {
    hide References, NoDup, AppendGroup, Accounted;
    AppendGroupLaw(e, ids, full, copies);
    var e' := AppendGroup(e, ids, full, copies).value.0;
    var b := e'.tables[s][k];
    assert e'.tables[t] == e.tables[t];
    if k < |e'.tables[s]| - 1 {
      assert e.tables[s][k] == b;
    } else if b in e'.tables[t] {
      var j :| 0 <= j < |e'.tables[t]| && e'.tables[t][j] == b;
      CountIs(e', b);
      CountedOnceIsExclusive(e', s, k, t, j);
    }
  }

  lemma AppendFollows(e: Engine, ids: seq<SeqId>, full: set<SeqId>, copies: map<nat, seq<nat>>)
    requires Consistent(e) && NoDup(ids) && Closed(e.tables, ids) && AppendGroup(e, ids, full, copies).Done?
    ensures PrivacyFollows(e.tables, AppendGroup(e, ids, full, copies).value.0.tables, ids, full)
  {
    hide Consistent, References, NoDup, AppendGroup, Occurrences, WillBePrivate;
    AppendGroupLaw(e, ids, full, copies);
    ClosedAfterAppend(e, ids, full, copies);
    var after := AppendGroup(e, ids, full, copies).value.0.tables;
    forall i, k | i in ids && 0 <= k < |after[i]|
      ensures Occurrences(after, ids, after[i][k]) == 1 <==> WillBePrivate(e.tables, ids, full, i, k)
    {
      AppendPrivateIff(e, ids, full, copies, i, k);
      AllReferencesInGroup(after, ids, after[i][k]);
    }
  }

  /** Whether entries are private depends on the tables of the group only. */
  lemma FollowsCongruence(before: Tables, before': Tables, after: Tables, after': Tables, ids: seq<SeqId>,
                          full: set<SeqId>)
    requires PrivacyFollows(before, after, ids, full) && SameOn(before, before', ids) && SameOn(after, after', ids)
    ensures PrivacyFollows(before', after', ids, full)
  {
    hide Occurrences, OpenCount;
    forall i, k | i in ids && 0 <= k < |after'[i]|
      ensures Occurrences(after', ids, after'[i][k]) == 1 <==> WillBePrivate(before', ids, full, i, k)
    {
      SameCounts(after, after', ids, full, after'[i][k]);
      if k < |before'[i]| {
        SameCounts(before, before', ids, full, before'[i][k]);
      }
    }
  }

  /** A swap-in renames the entries and changes no count. */
  lemma SwapInFollows(e: Engine, ids: seq<SeqId>, mapping: map<nat, Block>, e1: Engine, after: Tables, full: set<SeqId>)
    requires Moved(e.tables, ids, mapping, e1.tables) && InjectiveTo(mapping, Gpu)
    requires forall s :: s in ids ==> s in e.tables
    requires forall s, b :: s in ids && b in e.tables[s] ==> b.dev == Cpu
    requires PrivacyFollows(e1.tables, after, ids, full)
    ensures PrivacyFollows(e.tables, after, ids, full)
  {
    hide Occurrences, OpenCount, InjectiveTo;
    forall i, k: nat | i in ids
      ensures WillBePrivate(e.tables, ids, full, i, k) <==> WillBePrivate(e1.tables, ids, full, i, k)
    {
      assert Renamed(e.tables[i], mapping, e1.tables[i]);
      if k < |e.tables[i]| {
        RenamedCounts(e.tables, ids, mapping, e1.tables, full, Cpu, Gpu, e.tables[i][k], ids);
      }
    }
  }

  // ----- The pass over the running queue

  /** The tables of these groups are the same. */
  ghost predicate SameFor(own: Owner, tables: Tables, tables': Tables, groups: set<nat>) {
    forall t :: t in own && own[t] in groups ==>
      (t in tables <==> t in tables') && (t in tables ==> tables'[t] == tables[t])
  }

  lemma SameForTrans(own: Owner, a: Tables, b: Tables, c: Tables, groups: set<nat>, more: set<nat>)
    requires SameFor(own, a, b, groups) && SameFor(own, b, c, more)
    ensures SameFor(own, a, c, groups * more)
  {
  }

  lemma GroupSame(own: Owner, tables: Tables, tables': Tables, groups: set<nat>, g: Group)
    requires SameFor(own, tables, tables', groups) && GroupOk(own, g) && g.id in groups
    ensures SameOn(tables, tables', g.seqs)
  {
  }

  lemma ClosedGroup(own: Owner, e: Engine, live: set<nat>, onCpu: set<nat>, g: Group)
    requires TablesOk(own, e, live, onCpu) && GroupOk(own, g) && g.id in live
    ensures Closed(e.tables, g.seqs) && NoDup(g.seqs) && Consistent(e)
  {
    hide Consistent;
  }

  lemma ClosedInHand(own: Owner, before: Engine, s: State, plan: Plan, kept: seq<Group>, rest: seq<Group>, g: Group,
                     swapOut: map<nat, nat>, copies: map<nat, seq<nat>>)
    requires PassOk(own, before, s, plan, kept, rest + [g], swapOut, copies)
    ensures GroupOk(own, g) && Closed(s.engine.tables, g.seqs) && NoDup(g.seqs) && Consistent(s.engine)
    ensures forall b, i :: i in g.seqs && b in s.engine.tables[i] ==> b.dev == Gpu
    ensures g.id !in Ids(kept) && g.id !in Ids(s.running) && g.id !in Ids(s.swappedOut) && g.id !in Ids(rest)
  {
    hide Consistent, Keeps, PlanLive, CopiesApart, Untouched, IsInverse, IsCopyInverse, Slotted;
    HandLast(own, s, kept, rest, g);
    ClosedGroup(own, s.engine, Ids(kept) + Ids(rest + [g]) + Ids(s.running) + Ids(s.swappedOut), Ids(s.swappedOut), g);
  }

  /** Preempting a group leaves the tables of all others and the running queue alone. */
  lemma PreemptOthers(own: Owner, before: Engine, s: State, plan: Plan, kept: seq<Group>, rest: seq<Group>, v: Group,
                      swapOut: map<nat, nat>, copies: map<nat, seq<nat>>, others: set<nat>)
    requires PassOk(own, before, s, plan, kept, rest + [v], swapOut, copies) && v.id !in others
    requires Preempt(s, v, swapOut).Done?
    ensures var s' := Preempt(s, v, swapOut).value.0;
            SameFor(own, s.engine.tables, s'.engine.tables, others) && s'.running == s.running
  {
    hide PassOk, FreeGroup, SwapOut, CanSwapOut, RemoveGroup, SetStatus, Consistent, NoDup;
    ClosedInHand(own, before, s, plan, kept, rest, v, swapOut, copies);
    if |v.seqs| != 1 && CanSwapOut(s.engine, v.seqs) {
      var _ := SwapOutLaw(s.engine, v.seqs);
    } else {
      FreeGroupLaw(s.engine, v.seqs);
      RemoveAbsent(s.running, v.id);
    }
  }

  lemma {:induction false} MakeRoomOthers(c: Config, own: Owner, before: Engine, s: State, plan: Plan,
                                          kept: seq<Group>, g: Group, swapOut: map<nat, nat>,
                                          copies: map<nat, seq<nat>>, preempted: seq<Group>)
    requires PassOk(own, before, s, plan, kept, [g], swapOut, copies) && MakeRoom(c, s, g, swapOut, preempted).Done?
    ensures var room := MakeRoom(c, s, g, swapOut, preempted).value;
            && Ids(room.state.running) <= Ids(s.running)
            && SameFor(own, s.engine.tables, room.state.engine.tables,
                       Ids(kept) + Ids(room.state.running) + if room.selfPreempted then {} else {g.id})
    decreases |s.running|
  {
    hide PassOk, Preempt, CanAppend, SameFor;
    var room := MakeRoom(c, s, g, swapOut, preempted).value;
    var others := Ids(kept) + Ids(room.state.running) + if room.selfPreempted then {} else {g.id};
    if CanAppend(c, s, g) {
      SameForSelf(own, s.engine.tables, others);
    } else if s.running != [] {
      var v := s.running[|s.running| - 1];
      var s1 := s.(running := s.running[..|s.running| - 1]);
      TakeLast(own, before, s, plan, kept, g, swapOut, copies);
      assert [g] + [v] == [g, v];
      var plan1 := PreemptSafe(own, before, s1, plan, kept, [g], v, swapOut, copies);
      var (s2, swapOut') := Preempt(s1, v, swapOut).value;
      ClosedInHand(own, before, s1, plan, kept, [g], v, swapOut, copies);
      PreemptOthers(own, before, s1, plan, kept, [g], v, swapOut, copies, Ids(kept) + Ids(s1.running) + {g.id}) by {
        assert g.id in Ids([g]);
      }
      MakeRoomOthers(c, own, before, s2, plan1, kept, g, swapOut', copies, preempted + [v]);
      SameForTrans(own, s.engine.tables, s2.engine.tables, room.state.engine.tables,
                   Ids(kept) + Ids(s1.running) + {g.id}, others);
      assert (Ids(kept) + Ids(s1.running) + {g.id}) * others == others;
    } else {
      assert [] + [g] == [g];
      ClosedInHand(own, before, s, plan, kept, [], g, swapOut, copies);
      var plan1 := PreemptSafe(own, before, s, plan, kept, [], g, swapOut, copies);
      PreemptOthers(own, before, s, plan, kept, [], g, swapOut, copies, Ids(kept) + Ids(s.running));
      assert others == Ids(kept) + Ids(s.running);
    }
  }

  lemma SameForSelf(own: Owner, tables: Tables, groups: set<nat>)
    ensures SameFor(own, tables, tables, groups)
  {
  }

  ghost predicate KeptFollow(before: Tables, after: Tables, kept: seq<Group>, full: set<SeqId>) {
    forall g :: g in kept ==> PrivacyFollows(before, after, g.seqs, full)
  }

  lemma KeptFollowOn(own: Owner, before: Tables, tables: Tables, tables': Tables, kept: seq<Group>, full: set<SeqId>,
                     groups: set<nat>)
    requires KeptFollow(before, tables, kept, full) && QueueOk(own, kept) && Ids(kept) <= groups
    requires SameFor(own, tables, tables', groups)
    ensures KeptFollow(before, tables', kept, full)
  {
    hide PrivacyFollows, GroupOk;
    forall g | g in kept ensures PrivacyFollows(before, tables', g.seqs, full) {
      assert g.id in Ids(kept);
      GroupSame(own, tables, tables', groups, g);
      FollowsCongruence(before, before, tables, tables', g.seqs, full);
    }
  }

  /** What holds in the pass about tables: untouched groups have their old ones, kept groups follow. */
  ghost predicate PassTables(own: Owner, before: Tables, s: State, kept: seq<Group>, hand: set<nat>, full: set<SeqId>,
                             preempted: seq<Group>) {
    && SameFor(own, before, s.engine.tables, hand + Ids(s.running))
    && KeptFollow(before, s.engine.tables, kept, full)
    && (preempted == [] ==> SameFor(own, before, s.engine.tables, Ids(s.swappedOut)))
  }

  lemma MakeRoomTables(c: Config, own: Owner, before: Engine, s: State, plan: Plan, kept: seq<Group>, g: Group,
                       swapOut: map<nat, nat>, copies: map<nat, seq<nat>>, preempted: seq<Group>, full: set<SeqId>)
    requires PassOk(own, before, s, plan, kept, [g], swapOut, copies) && MakeRoom(c, s, g, swapOut, preempted).Done?
    requires PassTables(own, before.tables, s, kept, {g.id}, full, preempted)
    ensures var room := MakeRoom(c, s, g, swapOut, preempted).value;
            PassTables(own, before.tables, room.state, kept, if room.selfPreempted then {} else {g.id}, full,
                       room.preempted)
  {
    hide PassOk, MakeRoom, SameFor, PrivacyFollows, KeptFollow;
    var plan' := MakeRoomSafe(c, own, before, s, plan, kept, g, swapOut, copies, preempted);
    MakeRoomOthers(c, own, before, s, plan, kept, g, swapOut, copies, preempted);
    var room := MakeRoom(c, s, g, swapOut, preempted).value;
    var hand := if room.selfPreempted then {} else {g.id};
    var others := Ids(kept) + Ids(room.state.running) + hand;
    KeptFollowOn(own, before.tables, s.engine.tables, room.state.engine.tables, kept, full, others) by {
      QueueOfPass(own, before, s, plan, kept, [g], swapOut, copies);
    }
    SameForTrans(own, before.tables, s.engine.tables, room.state.engine.tables, {g.id} + Ids(s.running), others);
    SameForFewer(own, before.tables, room.state.engine.tables, ({g.id} + Ids(s.running)) * others,
                 hand + Ids(room.state.running));
  }

  lemma SameForFewer(own: Owner, tables: Tables, tables': Tables, groups: set<nat>, fewer: set<nat>)
    requires SameFor(own, tables, tables', groups) && fewer <= groups
    ensures SameFor(own, tables, tables', fewer)
  {
  }

  lemma QueueOfPass(own: Owner, before: Engine, s: State, plan: Plan, kept: seq<Group>, hand: seq<Group>,
                    swapOut: map<nat, nat>, copies: map<nat, seq<nat>>)
    requires PassOk(own, before, s, plan, kept, hand, swapOut, copies)
    ensures QueueOk(own, kept) && QueueOk(own, s.swappedOut) && QueueOk(own, s.running)
  {
  }

  /** The group in hand gets its slots. */
  lemma KeepTables(own: Owner, before: Engine, s: State, plan: Plan, kept: seq<Group>, g: Group,
                   swapOut: map<nat, nat>, copies: map<nat, seq<nat>>, full: set<SeqId>, preempted: seq<Group>)
    requires PassOk(own, before, s, plan, kept, [g], swapOut, copies)
    requires AppendGroup(s.engine, g.seqs, full, copies).Done?
    requires PassTables(own, before.tables, s, kept, {g.id}, full, preempted)
    ensures var e := AppendGroup(s.engine, g.seqs, full, copies).value.0;
            PassTables(own, before.tables, s.(engine := e), kept + [g], {}, full, preempted)
  {
    hide PassOk, SameFor, PrivacyFollows, AppendGroup, Closed, Consistent, NoDup, GroupOk;
    assert [] + [g] == [g];
    ClosedInHand(own, before, s, plan, kept, [], g, swapOut, copies);
    QueueOfPass(own, before, s, plan, kept, [g], swapOut, copies);
    var e := AppendGroup(s.engine, g.seqs, full, copies).value.0;
    AppendFollows(s.engine, g.seqs, full, copies);
    GroupSame(own, before.tables, s.engine.tables, {g.id} + Ids(s.running), g);
    SameOnSym(before.tables, s.engine.tables, g.seqs);
    FollowsCongruence(s.engine.tables, before.tables, e.tables, e.tables, g.seqs, full);
    var others := Ids(kept) + Ids(s.running) + Ids(s.swappedOut);
    AppendOthers(own, s.engine, g, full, copies, others);
    KeptFollowOn(own, before.tables, s.engine.tables, e.tables, kept, full, others);
    SameForTrans(own, before.tables, s.engine.tables, e.tables, {g.id} + Ids(s.running), others);
    SameForFewer(own, before.tables, e.tables, ({g.id} + Ids(s.running)) * others, {} + Ids(s.running));
    if preempted == [] {
      SameForTrans(own, before.tables, s.engine.tables, e.tables, Ids(s.swappedOut), others);
      assert Ids(s.swappedOut) * others == Ids(s.swappedOut);
    }
  }

  lemma SameOnSym(tables: Tables, tables': Tables, ids: seq<SeqId>)
    requires SameOn(tables, tables', ids)
    ensures SameOn(tables', tables, ids) && SameOn(tables', tables', ids)
  {
  }

  lemma AppendOthers(own: Owner, e: Engine, g: Group, full: set<SeqId>, copies: map<nat, seq<nat>>, others: set<nat>)
    requires Consistent(e) && GroupOk(own, g) && AppendGroup(e, g.seqs, full, copies).Done? && g.id !in others
    ensures SameFor(own, e.tables, AppendGroup(e, g.seqs, full, copies).value.0.tables, others)
  {
    hide Consistent, AppendGroup, References, NoDup, Extended;
    AppendGroupLaw(e, g.seqs, full, copies);
  }

  lemma SameFull(c: Config, seqs: map<SeqId, Sequence>, seqs': map<SeqId, Sequence>)
    requires SameTokens(seqs, seqs')
    ensures FullSeqs(c, seqs) == FullSeqs(c, seqs')
  {
  }

  lemma {:induction false} ProcessWrites(c: Config, own: Owner, before: Engine, s: State, plan: Plan, kept: seq<Group>,
                                         ops: Ops, preempted: seq<Group>, full: set<SeqId>)
    requires PassOk(own, before, s, plan, kept, [], ops.swapOut, ops.copies)
    requires Process(c, s, kept, ops, preempted).Done?
    requires PassTables(own, before.tables, s, kept, {}, full, preempted) && full == FullSeqs(c, s.seqs)
    ensures var (s', _, preempted') := Process(c, s, kept, ops, preempted).value;
            && PassTables(own, before.tables, s'.(running := []), s'.running, {}, full, preempted')
            && full == FullSeqs(c, s'.seqs)
    decreases |s.running|
  {
    hide PassOk, MakeRoom, AppendGroup, SameFor, KeptFollow, FullSeqs;
    if s.running == [] {
      assert s.(running := kept).(running := []) == s;
    } else {
      var g := s.running[0];
      var s1 := s.(running := s.running[1..]);
      TakeFirst(own, before, s, plan, kept, ops.swapOut, ops.copies);
      assert {g.id} + Ids(s1.running) == {} + Ids(s.running) by {
        QueueOfPass(own, before, s, plan, kept, [], ops.swapOut, ops.copies);
        QueueFirst(own, s.running);
      }
      var plan1 := MakeRoomSafe(c, own, before, s1, plan, kept, g, ops.swapOut, ops.copies, preempted);
      MakeRoomTables(c, own, before, s1, plan, kept, g, ops.swapOut, ops.copies, preempted, full);
      MakeRoomLens(c, s1, g, ops.swapOut, preempted);
      var room := MakeRoom(c, s1, g, ops.swapOut, preempted).value;
      SameFull(c, s1.seqs, room.state.seqs);
      var ops1 := ops.(swapOut := room.swapOut);
      if room.selfPreempted {
        ProcessWrites(c, own, before, room.state, plan1, kept, ops1, room.preempted, full);
      } else {
        var plan2 := KeepGroup(c, own, before, room.state, plan1, kept, g, room.swapOut, ops.copies, full);
        KeepTables(own, before, room.state, plan1, kept, g, room.swapOut, ops.copies, full, room.preempted);
        var (e, copies) := AppendGroup(room.state.engine, g.seqs, full, ops.copies).value;
        ProcessWrites(c, own, before, room.state.(engine := e), plan2, kept + [g], ops1.(copies := copies),
                      room.preempted, full);
      }
    }
  }

  /**
   When the appends for the group in hand panic, whatever has been preempted for it: the guard counts its full
   sequences, the appends need one block per sequence less one per last block that only open ends share.
   */
  lemma AppendTurnIff(own: Owner, before: Engine, s: State, plan: Plan, kept: seq<Group>, g: Group,
                      swapOut: map<nat, nat>, copies: map<nat, seq<nat>>, full: set<SeqId>)
    requires PassOk(own, before, s, plan, kept, [g], swapOut, copies)
    ensures AppendGroup(s.engine, g.seqs, full, copies).Done? <==>
            && SwapInRoom.OpenEnds(s.engine.tables, g.seqs, full)
            && |g.seqs| - |SwapInRoom.KeptLasts(s.engine.tables, g.seqs, full)| <= |s.engine.pools.gpuFree|
  {
    hide PassOk, AppendGroup, Consistent, NoDup, OwnedLasts, SwapInRoom.KeptLasts, GroupOk;
    assert [] + [g] == [g];
    ClosedInHand(own, before, s, plan, kept, [], g, swapOut, copies);
    AppendGroupIff(s.engine, g.seqs, full, copies);
    SwapInRoom.OwnedAreKept(s.engine, g.seqs, full);
    forall i | i in g.seqs && s.engine.tables[i] != [] ensures Last(s.engine.tables[i]).dev.Gpu? {
      assert Last(s.engine.tables[i]) in s.engine.tables[i];
    }
  }

  // ----- Swapping in

  lemma SwapInTurn(own: Owner, before: Engine, s: State, plan: Plan, ops: Ops, full: set<SeqId>)
    requires SwapInOk(own, before, s, plan, ops) && s.swappedOut != [] && CanSwapIn(s.engine, s.swappedOut[0].seqs)
    requires SwapIn(s.engine, s.swappedOut[0].seqs).Done?
    requires AppendGroup(SwapIn(s.engine, s.swappedOut[0].seqs).value.0, s.swappedOut[0].seqs, full, ops.copies).Done?
    requires SameFor(own, before.tables, s.engine.tables, Ids(s.swappedOut))
    requires KeptFollow(before.tables, s.engine.tables, s.running, full)
    ensures var g := s.swappedOut[0];
            var e := AppendGroup(SwapIn(s.engine, g.seqs).value.0, g.seqs, full, ops.copies).value.0;
            && SameFor(own, before.tables, e.tables, Ids(s.swappedOut[1..]))
            && KeptFollow(before.tables, e.tables, s.running + [g], full)
  {
    hide SwapIn, AppendGroup, CanSwapIn, SameFor, PrivacyFollows, SwapInOk, GroupOk, Closed, InjectiveTo, Moved,
         Consistent, NoDup;
    var g := s.swappedOut[0];
    SwapInGroupFacts(own, before, s, plan, ops);
    var mapping := SwapInLaw(s.engine, g.seqs);
    var e1 := SwapIn(s.engine, g.seqs).value.0;
    SwapInRoom.ClosedAfterSwap(s.engine, g.seqs, mapping, e1);
    AppendFollows(e1, g.seqs, full, ops.copies);
    var e := AppendGroup(e1, g.seqs, full, ops.copies).value.0;
    SwapInFollows(s.engine, g.seqs, mapping, e1, e.tables, full);
    GroupSame(own, before.tables, s.engine.tables, Ids(s.swappedOut), g);
    SameOnSym(before.tables, s.engine.tables, g.seqs);
    SameOnSelf(e.tables, g.seqs);
    FollowsCongruence(s.engine.tables, before.tables, e.tables, e.tables, g.seqs, full);
    var others := Ids(s.running) + Ids(s.swappedOut[1..]);
    MovedOthers(own, s.engine.tables, g, mapping, e1.tables, others);
    AppendOthers(own, e1, g, full, ops.copies, others);
    SameForTrans(own, s.engine.tables, e1.tables, e.tables, others, others);
    assert others * others == others;
    KeptFollowOn(own, before.tables, s.engine.tables, e.tables, s.running, full, others);
    SameForTrans(own, before.tables, s.engine.tables, e.tables, Ids(s.swappedOut), others);
    SameForFewer(own, before.tables, e.tables, Ids(s.swappedOut) * others, Ids(s.swappedOut[1..]));
  }

  lemma SameOnSelf(tables: Tables, ids: seq<SeqId>)
    ensures SameOn(tables, tables, ids)
  {
  }

  lemma MovedOthers(own: Owner, tables: Tables, g: Group, mapping: map<nat, Block>, tables': Tables, others: set<nat>)
    requires GroupOk(own, g) && Moved(tables, g.seqs, mapping, tables') && g.id !in others
    ensures SameFor(own, tables, tables', others)
  {
  }

  lemma SwapInGroupFacts(own: Owner, before: Engine, s: State, plan: Plan, ops: Ops)
    requires SwapInOk(own, before, s, plan, ops) && s.swappedOut != []
    ensures var g := s.swappedOut[0];
            && GroupOk(own, g) && NoDup(g.seqs) && Consistent(s.engine) && QueueOk(own, s.running)
            && (forall i :: i in g.seqs ==> i in s.engine.tables)
            && (forall i, b :: i in g.seqs && b in s.engine.tables[i] ==> b.dev == Cpu)
            && g.id in Ids(s.swappedOut) && g.id !in Ids(s.running) && g.id !in Ids(s.swappedOut[1..])
            && Ids(s.swappedOut[1..]) <= Ids(s.swappedOut)
  {
    hide Consistent, Describes, Slotted, Keeps, PlanLive, CopiesApart, Untouched, NoSharing;
    QueueFirst(own, s.swappedOut);
  }

  lemma {:induction false} SwapInLoopWrites(c: Config, own: Owner, before: Engine, s: State, plan: Plan, ops: Ops,
                                            full: set<SeqId>)
    requires SwapInOk(own, before, s, plan, ops) && SwapInLoop(c, s, ops).Done? && full == FullSeqs(c, s.seqs)
    requires SameFor(own, before.tables, s.engine.tables, Ids(s.swappedOut))
    requires KeptFollow(before.tables, s.engine.tables, s.running, full)
    ensures var s' := SwapInLoop(c, s, ops).value.0;
            KeptFollow(before.tables, s'.engine.tables, s'.running, full) && s'.seqs == s.seqs
    decreases |s.swappedOut|
  {
    hide SwapInOk, SwapIn, CanSwapIn, AppendGroup, SameFor, KeptFollow, FullSeqs;
    if s.swappedOut != [] && CanSwapIn(s.engine, s.swappedOut[0].seqs) {
      var g := s.swappedOut[0];
      var plan1 := SwapInGroup(own, before, s, plan, ops, full);
      SwapInTurn(own, before, s, plan, ops, full);
      var (e, swap) := SwapIn(s.engine, g.seqs).value;
      var (e', copies) := AppendGroup(e, g.seqs, full, ops.copies).value;
      SwapInLoopWrites(c, own, before, s.(swappedOut := s.swappedOut[1..], running := s.running + [g], engine := e'),
                       plan1, ops.(swapIn := ops.swapIn + swap, copies := copies), full);
    }
  }

  // ----- The whole step

  /**
   After a step without admission, for every group that was scheduled, kept or swapped in: an entry of a table is
   referenced by nothing else exactly when the tables before the step say so.
   */
  lemma DecodeFollows(c: Config, own: Owner, s: State)
    requires SchedulerOk(own, s) && Decode(c, s).Done?
    ensures var s' := Decode(c, s).value.0;
            && KeptFollow(s.engine.tables, s'.engine.tables, s'.running, FullSeqs(c, s.seqs))
            && FullSeqs(c, s'.seqs) == FullSeqs(c, s.seqs)
  {
    hide SchedulerOk, PassOk, Process, SwapInLoop, LatestFirst, KeptFollow, SameFor, FullSeqs, IsInverse, IsCopyInverse,
         Keeps, CopiesApart, Slotted;
    StepStarts(own, s);
    var s0 := s.(running := LatestFirst(s.running));
    var full := FullSeqs(c, s.seqs);
    NothingChanged(own, s0, full);
    var plan1 := ProcessSafe(c, own, s.engine, s0, NoOps, [], NoMaps, []);
    ProcessWrites(c, own, s.engine, s0, NoOps, [], NoMaps, [], full);
    var (s1, ops, preempted) := Process(c, s0, [], NoMaps, []).value;
    StepEnds(own, s.engine, s1, plan1, ops);
    var s2 := s1.(swappedOut := LatestFirst(s1.swappedOut));
    SameSwapped(s1);
    if preempted == [] {
      SwapInLoopWrites(c, own, s.engine, s2, plan1, ops, full);
    }
  }

  lemma NothingChanged(own: Owner, s: State, full: set<SeqId>)
    ensures PassTables(own, s.engine.tables, s, [], {}, full, [])
  {
    hide PrivacyFollows;
  }

  lemma SameSwapped(s: State)
    ensures Ids(LatestFirst(s.swappedOut)) == Ids(s.swappedOut)
  {
    LatestFirstDescending(s.swappedOut);
  }
}
