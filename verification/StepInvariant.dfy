/**
 What holds at every point inside a schedule step, and why each engine operation keeps it although the
 memory operations it emits are executed only after the step.
 */
module StepInvariant {
  import opened Outcomes
  import opened Pools
  import opened Engine
  import opened EngineLaws
  import opened AppendLaws
  import opened MemoryOps

  /** Which group a sequence belongs to. */
  type Owner = map<SeqId, nat>

  /** The tables are exactly those of the live groups. */
  ghost predicate Keyed(own: Owner, tables: Tables, live: set<nat>) {
    forall s :: s in tables <==> s in own && own[s] in live
  }

  /** Sequences of different groups share no block. */
  ghost predicate NoSharing(own: Owner, tables: Tables) {
    forall s, t, b :: s in tables && t in tables && b in tables[s] && b in tables[t] ==>
      s in own && t in own && own[s] == own[t]
  }

  /** Swapped-out groups hold CPU blocks only, the others GPU blocks only. */
  ghost predicate Placed(own: Owner, tables: Tables, onCpu: set<nat>) {
    forall s, b :: s in tables && b in tables[s] ==>
      s in own && b.dev == if own[s] in onCpu then Cpu else Gpu
  }

  ghost predicate TablesOk(own: Owner, e: Engine, live: set<nat>, onCpu: set<nat>) {
    Consistent(e) && Keyed(own, e.tables, live) && NoSharing(own, e.tables) && Placed(own, e.tables, onCpu)
  }

  /** Every table position that existed before the step still leads to the same old contents. */
  ghost predicate Keeps(before: Tables, tables: Tables, plan: Plan) {
    forall s :: s in before && s in tables ==>
      && |before[s]| <= |tables[s]|
      && (forall j :: 0 <= j < |before[s]| ==> Origin(plan, tables[s][j]) == before[s][j])
  }

  /** Blocks a plan writes or copies from are in use; copy destinations by one reference only. */
  ghost predicate PlanLive(tables: Tables, plan: Plan) {
    && (forall d :: d in plan.copy ==> References(tables)[Block(Gpu, d)] == 1)
    && (forall d :: d in plan.copy ==> References(tables)[Block(Gpu, plan.copy[d])] >= 1)
    && (forall c :: c in plan.out ==> References(tables)[Block(Cpu, c)] >= 1)
    && (forall x :: x in plan.inn ==> References(tables)[Block(Gpu, x)] >= 1)
  }

  /** All blocks a plan reads or writes are blocks of the two pools. */
  ghost predicate Within(plan: Plan, blocks: set<Block>) {
    && (forall x :: x in plan.inn ==> Block(Gpu, x) in blocks && Block(Cpu, plan.inn[x]) in blocks)
    && (forall c :: c in plan.out ==> Block(Cpu, c) in blocks && Block(Gpu, plan.out[c]) in blocks)
    && (forall d :: d in plan.copy ==> Block(Gpu, d) in blocks && Block(Gpu, plan.copy[d]) in blocks)
  }

  /** A block that no operation of the plan has touched so far. */
  ghost predicate Clean(plan: Plan, b: Block) {
    if b.dev.Gpu? then b.id !in plan.copy && b.id !in plan.copy.Values && b.id !in plan.out.Values
    else b.id !in plan.inn.Values
  }

  /** The groups still to be handled hold clean blocks only. */
  ghost predicate Untouched(own: Owner, tables: Tables, plan: Plan, todo: set<nat>) {
    forall s, b :: s in tables && b in tables[s] && s in own && own[s] in todo ==> Clean(plan, b)
  }

  /** `before` is the engine as it was when the step began. */
  ghost predicate StepOk(own: Owner, before: Engine, e: Engine, plan: Plan, live: set<nat>, onCpu: set<nat>,
                         todo: set<nat>) {
    && TablesOk(own, e, live, onCpu)
    && e.pools.refs.Keys == before.pools.refs.Keys
    && Keeps(before.tables, e.tables, plan) && PlanLive(e.tables, plan) && CopiesApart(plan)
    && Untouched(own, e.tables, plan, todo) && Within(plan, before.pools.refs.Keys)
  }

  /** `ids` lists exactly the sequences of group `g`. */
  ghost predicate GroupIs(own: Owner, ids: seq<SeqId>, g: nat) {
    NoDup(ids) && (forall s :: s in ids <==> s in own && own[s] == g)
  }

  // ----- Freeing

  lemma PlanBlocksElsewhere(own: Owner, tables: Tables, plan: Plan, ids: seq<SeqId>, g: nat, todo: set<nat>,
                            onCpu: set<nat>)
    requires GroupIs(own, ids, g) && g in todo && g !in onCpu
    requires Untouched(own, tables, plan, todo) && Placed(own, tables, onCpu)
    ensures forall d, s :: d in plan.copy && s in ids && s in tables ==>
              Block(Gpu, d) !in tables[s] && Block(Gpu, plan.copy[d]) !in tables[s]
    ensures forall c, s :: c in plan.out && s in ids && s in tables ==> Block(Cpu, c) !in tables[s]
  {
    forall d, s | d in plan.copy && s in ids && s in tables
      ensures Block(Gpu, d) !in tables[s] && Block(Gpu, plan.copy[d]) !in tables[s]
    {
      assert plan.copy[d] in plan.copy.Values;
      assert !Clean(plan, Block(Gpu, d)) && !Clean(plan, Block(Gpu, plan.copy[d]));
    }
  }

  /** Freeing a group that has not been handled yet. */
  lemma FreeStep(own: Owner, before: Engine, e: Engine, plan: Plan, live: set<nat>, onCpu: set<nat>, todo: set<nat>,
                 ids: seq<SeqId>, g: nat)
    requires StepOk(own, before, e, plan, live, onCpu, todo)
    requires GroupIs(own, ids, g) && g in todo && g in live && g !in onCpu && plan.inn == map[]
    ensures FreeGroup(e, ids).Done?
    ensures StepOk(own, before, FreeGroup(e, ids).value, plan, live - {g}, onCpu, todo - {g})
  {
    hide Consistent, Origin, Clean, FreeGroup, References;
    FreeGroupLaw(e, ids);
    var gone := set s | s in ids;
    var e' := FreeGroup(e, ids).value;
    PlanBlocksElsewhere(own, e.tables, plan, ids, g, todo, onCpu);
    forall b | forall s :: s in ids && s in e.tables ==> b !in e.tables[s]
      ensures References(e'.tables)[b] == References(e.tables)[b]
    {
      RemovedTablesCount(e.tables, gone, b);
    }
    assert PlanLive(e'.tables, plan);
    assert Keyed(own, e'.tables, live - {g});
    assert Keeps(before.tables, e'.tables, plan);
  }

  // ----- Swapping

  /** Counts of blocks in neither the old nor the new tables of a moved group do not change. */
  lemma MovedCount(tables: Tables, ids: seq<SeqId>, mapping: map<nat, Block>, tables': Tables, b: Block)
    requires Moved(tables, ids, mapping, tables')
    requires forall s :: s in ids && s in tables ==> b !in tables[s]
    requires forall k :: k in mapping ==> mapping[k] != b
    ensures References(tables')[b] == References(tables)[b]
  {
    hide References;
    var gone := set s | s in ids;
    forall s | s in gone && s in tables' ensures b !in tables'[s] {
      assert Renamed(tables[s], mapping, tables'[s]);
    }
    RemovedTablesCount(tables, gone, b);
    RemovedTablesCount(tables', gone, b);
    assert tables - gone == tables' - gone;
  }

  /** Moving a group to fresh blocks of another device keeps groups apart and blocks in place. */
  lemma MovedTablesOk(own: Owner, e: Engine, live: set<nat>, onCpu: set<nat>, ids: seq<SeqId>, g: nat,
                      mapping: map<nat, Block>, e': Engine, to: Device)
    requires TablesOk(own, e, live, onCpu) && GroupIs(own, ids, g) && g in live && Consistent(e')
    requires Moved(e.tables, ids, mapping, e'.tables) && InjectiveTo(mapping, to)
    requires forall k :: k in mapping ==> mapping[k] !in References(e.tables)
    ensures TablesOk(own, e', live, if to.Cpu? then onCpu + {g} else onCpu - {g})
  {
    hide Consistent, References;
    forall s, b | s in e.tables && b in e.tables[s] ensures b in References(e.tables) {
      TableBlockLive(e, s, b);
    }
    forall s, b | s in ids && s in e'.tables && b in e'.tables[s] ensures b.dev == to && b !in References(e.tables) {
      MovedDevice(e.tables, ids, mapping, e'.tables, to);
      assert Renamed(e.tables[s], mapping, e'.tables[s]);
      var i :| 0 <= i < |e'.tables[s]| && e'.tables[s][i] == b;
    }
    assert NoSharing(own, e'.tables);
  }

  /** What a swap of a group does to the origins of its table entries. */
  lemma MovedKeeps(before: Tables, tables: Tables, plan: Plan, ids: seq<SeqId>, mapping: map<nat, Block>,
                   tables': Tables, plan': Plan)
    requires Keeps(before, tables, plan) && Moved(tables, ids, mapping, tables')
    requires forall s, j :: s in ids && s in tables && 0 <= j < |tables[s]| && tables[s][j].id in mapping ==>
               Origin(plan', mapping[tables[s][j].id]) == Origin(plan, tables[s][j])
    requires forall s, b :: s in tables && s !in ids && b in tables[s] ==> Origin(plan', b) == Origin(plan, b)
    ensures Keeps(before, tables', plan')
  {
    hide Origin;
    forall s | s in before && s in tables'
      ensures |before[s]| <= |tables'[s]|
      ensures forall j :: 0 <= j < |before[s]| ==> Origin(plan', tables'[s][j]) == before[s][j]
    {
      if s in ids {
        assert Renamed(tables[s], mapping, tables'[s]);
      }
    }
  }

  /** The swap-outs of a group, from CPU destination to GPU source. */
  ghost function SwapPart(mapping: map<nat, Block>): map<nat, nat> {
    Inverse(BlockIds(mapping))
  }

  lemma SwapPartLaw(mapping: map<nat, Block>, d: Device)
    requires InjectiveTo(mapping, d)
    ensures IsInverse(BlockIds(mapping), SwapPart(mapping))
    ensures forall k :: k in mapping ==> mapping[k].id in SwapPart(mapping) && SwapPart(mapping)[mapping[k].id] == k
    ensures forall v :: v in SwapPart(mapping) ==>
              SwapPart(mapping)[v] in mapping && mapping[SwapPart(mapping)[v]] == Block(d, v)
  {
    var m := BlockIds(mapping);
    forall k, l | k in m && l in m && m[k] == m[l] ensures k == l {
      assert mapping[k] == Block(d, m[k]) && mapping[l] == Block(d, m[l]);
    }
    InverseIsInverse(m);
    forall k | k in mapping ensures mapping[k].id in SwapPart(mapping) && SwapPart(mapping)[mapping[k].id] == k {
      assert k in m && m[k] == mapping[k].id;
    }
    forall v | v in SwapPart(mapping)
      ensures SwapPart(mapping)[v] in mapping && mapping[SwapPart(mapping)[v]] == Block(d, v)
    {
      assert SwapPart(mapping)[v] in m && m[SwapPart(mapping)[v]] == v;
    }
  }

  /** A group's block ids are the ids of clean GPU blocks, so they are new keys of the swap-out map. */
  lemma GroupIdsClean(own: Owner, tables: Tables, plan: Plan, todo: set<nat>, onCpu: set<nat>, ids: seq<SeqId>, g: nat,
                      k: nat)
    requires GroupIs(own, ids, g) && g in todo
    requires Untouched(own, tables, plan, todo) && Placed(own, tables, onCpu)
    requires k in GroupBlockIds(tables, ids)
    ensures Clean(plan, Block(if g in onCpu then Cpu else Gpu, k))
  {
    var s, b :| s in ids && s in tables && b in tables[s] && b.id == k;
    assert b == Block(if g in onCpu then Cpu else Gpu, k);
  }

  /** The blocks of a group, and the blocks that replace them, are blocks of the pools. */
  lemma SwapWithin(own: Owner, e: Engine, onCpu: set<nat>, ids: seq<SeqId>, g: nat, mapping: map<nat, Block>,
                   e': Engine, d: Device)
    requires Consistent(e) && Consistent(e') && Placed(own, e.tables, onCpu) && GroupIs(own, ids, g)
    requires mapping.Keys == GroupBlockIds(e.tables, ids) && InjectiveTo(mapping, d)
    requires forall k :: k in mapping ==> mapping[k] in References(e'.tables)
    ensures forall k :: k in mapping ==> Block(if g in onCpu then Cpu else Gpu, k) in e.pools.refs
    ensures forall v :: v in SwapPart(mapping) ==> Block(d, v) in e'.pools.refs
  {
    hide References, SwapPart, FreeListOk;
    SwapPartLaw(mapping, d);
    forall k | k in mapping ensures Block(if g in onCpu then Cpu else Gpu, k) in e.pools.refs {
      var s, b :| s in ids && s in e.tables && b in e.tables[s] && b.id == k;
      TableBlockLive(e, s, b);
    }
  }

  lemma SwapOutWithin(own: Owner, e: Engine, onCpu: set<nat>, ids: seq<SeqId>, g: nat, mapping: map<nat, Block>,
                      e': Engine, plan: Plan, plan': Plan, blocks: set<Block>)
    requires Consistent(e) && Consistent(e') && Placed(own, e.tables, onCpu) && GroupIs(own, ids, g) && g !in onCpu
    requires mapping.Keys == GroupBlockIds(e.tables, ids) && InjectiveTo(mapping, Cpu)
    requires forall k :: k in mapping ==> mapping[k] in References(e'.tables)
    requires e.pools.refs.Keys == blocks == e'.pools.refs.Keys && Within(plan, blocks)
    requires plan' == plan.(out := plan.out + SwapPart(mapping))
    ensures Within(plan', blocks)
  {
    hide Consistent, References, SwapPart, GroupBlockIds, Placed, GroupIs;
    SwapWithin(own, e, onCpu, ids, g, mapping, e', Cpu);
    SwapPartLaw(mapping, Cpu);
  }

  lemma SwapInWithin(own: Owner, e: Engine, onCpu: set<nat>, ids: seq<SeqId>, g: nat, mapping: map<nat, Block>,
                     e': Engine, plan: Plan, plan': Plan, blocks: set<Block>)
    requires Consistent(e) && Consistent(e') && Placed(own, e.tables, onCpu) && GroupIs(own, ids, g) && g in onCpu
    requires mapping.Keys == GroupBlockIds(e.tables, ids) && InjectiveTo(mapping, Gpu)
    requires forall k :: k in mapping ==> mapping[k] in References(e'.tables)
    requires e.pools.refs.Keys == blocks == e'.pools.refs.Keys && Within(plan, blocks)
    requires plan' == plan.(inn := plan.inn + SwapPart(mapping))
    ensures Within(plan', blocks)
  {
    hide Consistent, References, SwapPart, GroupBlockIds, Placed, GroupIs;
    SwapWithin(own, e, onCpu, ids, g, mapping, e', Gpu);
    SwapPartLaw(mapping, Gpu);
  }

  /** Swapping out a group that has not been handled yet. */
  lemma SwapOutStep(own: Owner, before: Engine, e: Engine, plan: Plan, live: set<nat>, onCpu: set<nat>, todo: set<nat>,
                    ids: seq<SeqId>, g: nat, swapOut: map<nat, nat>) returns (plan': Plan)
    requires StepOk(own, before, e, plan, live, onCpu, todo)
    requires GroupIs(own, ids, g) && g in todo && g in live && g !in onCpu && plan.inn == map[]
    requires CanSwapOut(e, ids) && IsInverse(swapOut, plan.out)
    ensures SwapOut(e, ids).Done?
    ensures StepOk(own, before, SwapOut(e, ids).value.0, plan', live, onCpu + {g}, todo - {g})
    ensures IsInverse(swapOut + SwapOut(e, ids).value.1, plan'.out)
    ensures plan'.inn == map[] && plan'.copy == plan.copy
  {
    hide Consistent, References, Moved, GroupBlockIds, IsInverse, SwapOut, CanSwapOut, SwapPart, InjectiveTo, Within;
    var mapping := SwapOutLaw(e, ids);
    var (e', swap) := SwapOut(e, ids).value;
    var more := SwapPart(mapping);
    SwapPartLaw(mapping, Cpu);
    plan' := plan.(out := plan.out + more);
    forall k | k in mapping ensures Clean(plan, Block(Gpu, k)) {
      GroupIdsClean(own, e.tables, plan, todo, onCpu, ids, g, k);
    }
    SwapOutDisjoint(e, plan, mapping, swapOut);
    InverseUnion(swapOut, plan.out, swap, more);
    MovedTablesOk(own, e, live, onCpu, ids, g, mapping, e', Cpu);
    SwapOutWithin(own, e, onCpu, ids, g, mapping, e', plan, plan', before.pools.refs.Keys);
    assert Keeps(before.tables, e'.tables, plan') by {
      SwapOutKeeps(own, before.tables, e, plan, onCpu, ids, g, mapping, e', plan');
    }
    SwapOutPlanLive(own, e, plan, onCpu, todo, ids, g, mapping, e', plan');
    SwapOutUntouched(own, e, plan, onCpu, todo, ids, g, mapping, e', plan');
  }

  lemma SwapOutDisjoint(e: Engine, plan: Plan, mapping: map<nat, Block>, swapOut: map<nat, nat>)
    requires PlanLive(e.tables, plan) && InjectiveTo(mapping, Cpu) && IsInverse(swapOut, plan.out)
    requires forall k :: k in mapping ==> mapping[k] !in References(e.tables) && Clean(plan, Block(Gpu, k))
    ensures swapOut.Keys !! BlockIds(mapping).Keys && plan.out.Keys !! SwapPart(mapping).Keys
  {
    hide References;
    SwapPartLaw(mapping, Cpu);
    forall k | k in swapOut ensures !Clean(plan, Block(Gpu, k)) {
      assert swapOut[k] in plan.out && plan.out[swapOut[k]] == k;
    }
    assert forall c :: c in plan.out ==> Block(Cpu, c) in References(e.tables);
  }

  lemma SwapOutKeeps(own: Owner, before: Tables, e: Engine, plan: Plan, onCpu: set<nat>,
                     ids: seq<SeqId>, g: nat, mapping: map<nat, Block>, e': Engine, plan': Plan)
    requires Consistent(e) && Placed(own, e.tables, onCpu) && GroupIs(own, ids, g) && g !in onCpu
    requires Keeps(before, e.tables, plan) && Moved(e.tables, ids, mapping, e'.tables) && InjectiveTo(mapping, Cpu)
    requires forall k :: k in mapping ==> mapping[k] !in References(e.tables) && Clean(plan, Block(Gpu, k))
    requires plan' == plan.(out := plan.out + SwapPart(mapping))
    ensures Keeps(before, e'.tables, plan')
  {
    hide Consistent, References, Origin, Keeps, Moved, SwapPart;
    SwapPartLaw(mapping, Cpu);
    forall s, j | s in ids && s in e.tables && 0 <= j < |e.tables[s]| && e.tables[s][j].id in mapping
      ensures Origin(plan', mapping[e.tables[s][j].id]) == Origin(plan, e.tables[s][j])
    {
      AddOutOrigin(plan, SwapPart(mapping), mapping[e.tables[s][j].id]);
    }
    forall s, b | s in e.tables && s !in ids && b in e.tables[s] ensures Origin(plan', b) == Origin(plan, b) {
      TableBlockLive(e, s, b);
      AddOutOrigin(plan, SwapPart(mapping), b);
    }
    MovedKeeps(before, e.tables, plan, ids, mapping, e'.tables, plan');
  }

  lemma SwapOutPlanLive(own: Owner, e: Engine, plan: Plan, onCpu: set<nat>, todo: set<nat>,
                        ids: seq<SeqId>, g: nat, mapping: map<nat, Block>, e': Engine, plan': Plan)
    requires Placed(own, e.tables, onCpu) && GroupIs(own, ids, g) && g in todo && g !in onCpu && plan.inn == map[]
    requires PlanLive(e.tables, plan) && Untouched(own, e.tables, plan, todo)
    requires Moved(e.tables, ids, mapping, e'.tables) && InjectiveTo(mapping, Cpu)
    requires forall k :: k in mapping ==> mapping[k] !in References(e.tables) && mapping[k] in References(e'.tables)
    requires plan' == plan.(out := plan.out + SwapPart(mapping))
    ensures PlanLive(e'.tables, plan')
  {
    hide References, Moved, SwapPart, Untouched, Placed, GroupIs;
    SwapPartLaw(mapping, Cpu);
    PlanBlocksElsewhere(own, e.tables, plan, ids, g, todo, onCpu);
    forall d | d in plan.copy
      ensures References(e'.tables)[Block(Gpu, d)] == 1 && References(e'.tables)[Block(Gpu, plan.copy[d])] >= 1
    {
      MovedCount(e.tables, ids, mapping, e'.tables, Block(Gpu, d));
      MovedCount(e.tables, ids, mapping, e'.tables, Block(Gpu, plan.copy[d]));
    }
    forall c | c in plan'.out ensures References(e'.tables)[Block(Cpu, c)] >= 1 {
      if c in SwapPart(mapping) {
        assert mapping[SwapPart(mapping)[c]] == Block(Cpu, c);
      } else {
        assert Block(Cpu, c) in References(e.tables);
        MovedCount(e.tables, ids, mapping, e'.tables, Block(Cpu, c));
      }
    }
  }

  lemma SwapOutUntouched(own: Owner, e: Engine, plan: Plan, onCpu: set<nat>, todo: set<nat>,
                         ids: seq<SeqId>, g: nat, mapping: map<nat, Block>, e': Engine, plan': Plan)
    requires NoSharing(own, e.tables) && Placed(own, e.tables, onCpu) && GroupIs(own, ids, g) && g !in onCpu
    requires plan.inn == map[] && Untouched(own, e.tables, plan, todo)
    requires Moved(e.tables, ids, mapping, e'.tables) && InjectiveTo(mapping, Cpu)
    requires mapping.Keys == GroupBlockIds(e.tables, ids)
    requires plan' == plan.(out := plan.out + SwapPart(mapping))
    ensures Untouched(own, e'.tables, plan', todo - {g})
  {
    hide References, SwapPart;
    SwapPartLaw(mapping, Cpu);
    forall s, b | s in e'.tables && b in e'.tables[s] && s in own && own[s] in todo - {g} ensures Clean(plan', b) {
      assert s !in ids && e'.tables[s] == e.tables[s];
      assert Clean(plan, b);
      forall c | c in plan'.out && b.dev.Gpu? ensures plan'.out[c] != b.id {
        if c in SwapPart(mapping) {
          OtherGroupsBlock(own, e.tables, onCpu, ids, g, SwapPart(mapping)[c], s, b);
        } else {
          assert plan.out[c] in plan.out.Values;
        }
      }
    }
  }

  lemma OtherGroupsBlock(own: Owner, tables: Tables, onCpu: set<nat>, ids: seq<SeqId>, g: nat, k: nat, s: SeqId,
                         b: Block)
    requires NoSharing(own, tables) && Placed(own, tables, onCpu) && GroupIs(own, ids, g)
    requires k in GroupBlockIds(tables, ids) && s in tables && s in own && own[s] != g && b in tables[s]
    requires b.dev == if g in onCpu then Cpu else Gpu
    ensures b.id != k
  {
    var t, x :| t in ids && t in tables && x in tables[t] && x.id == k;
    assert x == Block(if g in onCpu then Cpu else Gpu, k);
  }

  // ----- Swapping in

  /** Swapping in a group that has not been handled yet; nothing is swapped out in such a step. */
  lemma SwapInStep(own: Owner, before: Engine, e: Engine, plan: Plan, live: set<nat>, onCpu: set<nat>, todo: set<nat>,
                   ids: seq<SeqId>, g: nat, swapIn: map<nat, nat>) returns (plan': Plan)
    requires StepOk(own, before, e, plan, live, onCpu, todo)
    requires GroupIs(own, ids, g) && g in todo && g in live && g in onCpu && plan.out == map[]
    requires CanSwapIn(e, ids) && IsInverse(swapIn, plan.inn)
    ensures SwapIn(e, ids).Done?
    ensures StepOk(own, before, SwapIn(e, ids).value.0, plan', live, onCpu - {g}, todo - {g})
    ensures IsInverse(swapIn + SwapIn(e, ids).value.1, plan'.inn)
    ensures plan'.out == map[] && plan'.copy == plan.copy
  {
    hide Consistent, References, Moved, GroupBlockIds, IsInverse, SwapIn, CanSwapIn, SwapPart, InjectiveTo, Within;
    var mapping := SwapInLaw(e, ids);
    var (e', swap) := SwapIn(e, ids).value;
    var more := SwapPart(mapping);
    SwapPartLaw(mapping, Gpu);
    plan' := plan.(inn := plan.inn + more);
    forall k | k in mapping ensures Clean(plan, Block(Cpu, k)) {
      GroupIdsClean(own, e.tables, plan, todo, onCpu, ids, g, k);
    }
    SwapInDisjoint(e, plan, mapping, swapIn);
    InverseUnion(swapIn, plan.inn, swap, more);
    MovedTablesOk(own, e, live, onCpu, ids, g, mapping, e', Gpu);
    SwapInWithin(own, e, onCpu, ids, g, mapping, e', plan, plan', before.pools.refs.Keys);
    assert Keeps(before.tables, e'.tables, plan') by {
      SwapInKeeps(own, before.tables, e, plan, onCpu, ids, g, mapping, e', plan');
    }
    SwapInPlanLive(own, e, plan, onCpu, ids, g, mapping, e', plan');
    SwapInUntouched(own, e, plan, onCpu, todo, ids, g, mapping, e', plan');
  }

  lemma SwapInDisjoint(e: Engine, plan: Plan, mapping: map<nat, Block>, swapIn: map<nat, nat>)
    requires PlanLive(e.tables, plan) && InjectiveTo(mapping, Gpu) && IsInverse(swapIn, plan.inn)
    requires forall k :: k in mapping ==> mapping[k] !in References(e.tables) && Clean(plan, Block(Cpu, k))
    ensures swapIn.Keys !! BlockIds(mapping).Keys && plan.inn.Keys !! SwapPart(mapping).Keys
  {
    hide References;
    SwapPartLaw(mapping, Gpu);
    forall k | k in swapIn ensures !Clean(plan, Block(Cpu, k)) {
      assert swapIn[k] in plan.inn && plan.inn[swapIn[k]] == k;
    }
    assert forall x :: x in plan.inn ==> Block(Gpu, x) in References(e.tables);
  }

  lemma SwapInKeeps(own: Owner, before: Tables, e: Engine, plan: Plan, onCpu: set<nat>,
                    ids: seq<SeqId>, g: nat, mapping: map<nat, Block>, e': Engine, plan': Plan)
    requires Consistent(e) && Placed(own, e.tables, onCpu) && GroupIs(own, ids, g) && g in onCpu
    requires PlanLive(e.tables, plan) && plan.out == map[]
    requires Keeps(before, e.tables, plan) && Moved(e.tables, ids, mapping, e'.tables) && InjectiveTo(mapping, Gpu)
    requires forall k :: k in mapping ==> mapping[k] !in References(e.tables)
    requires plan' == plan.(inn := plan.inn + SwapPart(mapping))
    ensures Keeps(before, e'.tables, plan')
  {
    hide Consistent, References, Origin, Keeps, Moved, SwapPart;
    SwapPartLaw(mapping, Gpu);
    forall x | x in SwapPart(mapping) ensures x !in plan.copy && x !in plan.copy.Values {
      assert mapping[SwapPart(mapping)[x]] == Block(Gpu, x);
    }
    forall s, j | s in ids && s in e.tables && 0 <= j < |e.tables[s]| && e.tables[s][j].id in mapping
      ensures Origin(plan', mapping[e.tables[s][j].id]) == Origin(plan, e.tables[s][j])
    {
      AddInOrigin(plan, SwapPart(mapping), mapping[e.tables[s][j].id]);
    }
    forall s, b | s in e.tables && s !in ids && b in e.tables[s] ensures Origin(plan', b) == Origin(plan, b) {
      TableBlockLive(e, s, b);
      AddInOrigin(plan, SwapPart(mapping), b);
    }
    MovedKeeps(before, e.tables, plan, ids, mapping, e'.tables, plan');
  }

  lemma SwapInPlanLive(own: Owner, e: Engine, plan: Plan, onCpu: set<nat>,
                       ids: seq<SeqId>, g: nat, mapping: map<nat, Block>, e': Engine, plan': Plan)
    requires Placed(own, e.tables, onCpu) && GroupIs(own, ids, g) && g in onCpu && plan.out == map[]
    requires PlanLive(e.tables, plan)
    requires Moved(e.tables, ids, mapping, e'.tables) && InjectiveTo(mapping, Gpu)
    requires forall k :: k in mapping ==> mapping[k] !in References(e.tables) && mapping[k] in References(e'.tables)
    requires plan' == plan.(inn := plan.inn + SwapPart(mapping))
    ensures PlanLive(e'.tables, plan')
  {
    hide References, Moved, SwapPart, Placed, GroupIs;
    SwapPartLaw(mapping, Gpu);
    forall b: Block | b.dev.Gpu? && b in References(e.tables)
      ensures References(e'.tables)[b] == References(e.tables)[b]
    {
      NotOnCpu(own, e.tables, onCpu, ids, g, b);
      MovedCount(e.tables, ids, mapping, e'.tables, b);
    }
    forall x | x in plan'.inn ensures References(e'.tables)[Block(Gpu, x)] >= 1 {
      if x in SwapPart(mapping) {
        assert mapping[SwapPart(mapping)[x]] == Block(Gpu, x);
      }
    }
  }

  lemma NotOnCpu(own: Owner, tables: Tables, onCpu: set<nat>, ids: seq<SeqId>, g: nat, b: Block)
    requires Placed(own, tables, onCpu) && GroupIs(own, ids, g) && g in onCpu && b.dev.Gpu?
    ensures forall s :: s in ids && s in tables ==> b !in tables[s]
  {
  }

  lemma SwapInUntouched(own: Owner, e: Engine, plan: Plan, onCpu: set<nat>, todo: set<nat>,
                        ids: seq<SeqId>, g: nat, mapping: map<nat, Block>, e': Engine, plan': Plan)
    requires NoSharing(own, e.tables) && Placed(own, e.tables, onCpu) && GroupIs(own, ids, g) && g in onCpu
    requires Untouched(own, e.tables, plan, todo)
    requires Moved(e.tables, ids, mapping, e'.tables) && InjectiveTo(mapping, Gpu)
    requires mapping.Keys == GroupBlockIds(e.tables, ids)
    requires plan' == plan.(inn := plan.inn + SwapPart(mapping))
    ensures Untouched(own, e'.tables, plan', todo - {g})
  {
    hide References, SwapPart;
    SwapPartLaw(mapping, Gpu);
    forall s, b | s in e'.tables && b in e'.tables[s] && s in own && own[s] in todo - {g} ensures Clean(plan', b) {
      assert s !in ids && e'.tables[s] == e.tables[s];
      assert Clean(plan, b);
      forall x | x in plan'.inn && b.dev.Cpu? ensures plan'.inn[x] != b.id {
        if x in SwapPart(mapping) {
          OtherGroupsBlock(own, e.tables, onCpu, ids, g, SwapPart(mapping)[x], s, b);
        } else {
          assert plan.inn[x] in plan.inn.Values;
        }
      }
    }
  }

  // ----- Appending slots

  /** One sequence gets its slot; its group is no longer among those still to be handled. */
  lemma AppendStep(own: Owner, before: Engine, e: Engine, plan: Plan, live: set<nat>, onCpu: set<nat>, todo: set<nat>,
                   s: SeqId, isFull: bool, copies: map<nat, seq<nat>>) returns (plan': Plan)
    requires StepOk(own, before, e, plan, live, onCpu, todo)
    requires s in own && own[s] !in todo && own[s] !in onCpu
    requires AppendSlot(e, s, isFull).Done? && IsCopyInverse(copies, plan.copy)
    ensures var (e', op) := AppendSlot(e, s, isFull).value;
            && StepOk(own, before, e', plan', live, onCpu, todo)
            && IsCopyInverse(if op.Some? then AddCopy(copies, op.value.0, op.value.1) else copies, plan'.copy)
    ensures plan'.inn == plan.inn && plan'.out == plan.out
  {
    hide Consistent, References, AppendSlot, Keyed, NoSharing, Placed, PlanLive, Keeps, Untouched, IsCopyInverse,
         CopiesApart;
    AppendSlotLaw(e, s, isFull);
    var (e', op) := AppendSlot(e, s, isFull).value;
    AppendTablesOk(own, e, live, onCpu, s, isFull, e', op);
    if op.None? {
      plan' := plan;
      AppendNoCopy(own, before.tables, e, plan, todo, s, isFull, e', op);
    } else {
      var (src, dst) := op.value;
      plan' := plan.(copy := plan.copy[dst := src]);
      CopyAllowed(e, plan, s, e', op);
      AddCopyOrigin(plan, src, dst);
      AddCopyInverse(copies, plan.copy, src, dst);
      AppendCopyKeeps(before.tables, e, plan, s, e', op, plan');
      AppendCopyLive(e, plan, s, e', op, plan');
      AppendCopyUntouched(own, e, plan, todo, s, e', op, plan');
      CopyWithin(e, s, e', op);
    }
  }

  lemma CopyWithin(e: Engine, s: SeqId, e': Engine, op: Option<(nat, nat)>)
    requires Consistent(e) && Consistent(e') && SlotAppended(e, s, false, e', op) && op.Some?
    ensures Block(Gpu, op.value.0) in e.pools.refs && Block(Gpu, op.value.1) in e'.pools.refs
  {
    hide Consistent, References;
    TableBlockLive(e, s, Last(e.tables[s]));
    TableBlockLive(e', s, Last(e'.tables[s]));
  }

  lemma NewLastFresh(e: Engine, s: SeqId, isFull: bool, e': Engine, op: Option<(nat, nat)>)
    requires SlotAppended(e, s, isFull, e', op)
    ensures forall b :: b in e'.tables[s] ==>
              b in e.tables[s] || (b == Last(e'.tables[s]) && b !in References(e.tables))
  {
  }

  lemma AppendTablesOk(own: Owner, e: Engine, live: set<nat>, onCpu: set<nat>, s: SeqId, isFull: bool,
                       e': Engine, op: Option<(nat, nat)>)
    requires TablesOk(own, e, live, onCpu) && s in own && own[s] !in onCpu
    requires SlotAppended(e, s, isFull, e', op) && Consistent(e')
    ensures TablesOk(own, e', live, onCpu)
  {
    hide Consistent, References;
    NewLastFresh(e, s, isFull, e', op);
    forall t, b | t in e.tables && b in e.tables[t] ensures b in References(e.tables) {
      TableBlockLive(e, t, b);
    }
  }

  /** Without a copy, a new block at most appears at the end of one table. */
  lemma AppendNoCopy(own: Owner, before: Tables, e: Engine, plan: Plan, todo: set<nat>, s: SeqId, isFull: bool,
                     e': Engine, op: Option<(nat, nat)>)
    requires Keeps(before, e.tables, plan) && PlanLive(e.tables, plan) && Untouched(own, e.tables, plan, todo)
    requires s in own && own[s] !in todo && SlotAppended(e, s, isFull, e', op) && op.None?
    ensures Keeps(before, e'.tables, plan) && PlanLive(e'.tables, plan) && Untouched(own, e'.tables, plan, todo)
  {
    hide References, Origin, Clean;
    if isFull {
      assert forall b :: b in References(e.tables) ==> References(e'.tables)[b] == References(e.tables)[b];
      assert PlanLive(e'.tables, plan);
    }
  }

  /** A shared last block is no copy destination, and the new block is neither source nor destination yet. */
  lemma CopyAllowed(e: Engine, plan: Plan, s: SeqId, e': Engine, op: Option<(nat, nat)>)
    requires PlanLive(e.tables, plan) && SlotAppended(e, s, false, e', op) && op.Some?
    ensures op.value.0 !in plan.copy && op.value.1 !in plan.copy && op.value.1 !in plan.copy.Values
    ensures op.value.0 != op.value.1
  {
    hide References;
    forall d | d in plan.copy ensures plan.copy[d] != op.value.1 {
      assert Block(Gpu, plan.copy[d]) in References(e.tables);
    }
  }

  lemma AddCopyInverse(copies: map<nat, seq<nat>>, inverse: map<nat, nat>, src: nat, dst: nat)
    requires IsCopyInverse(copies, inverse) && dst !in inverse
    ensures IsCopyInverse(AddCopy(copies, src, dst), inverse[dst := src])
  {
    var copies' := AddCopy(copies, src, dst);
    var dsts := if src in copies then copies[src] else [];
    assert dst !in dsts;
    NoDupPush(dsts, dst);
    forall s | s in copies' ensures NoDup(copies'[s]) {}
  }

  lemma AppendCopyKeeps(before: Tables, e: Engine, plan: Plan, s: SeqId, e': Engine, op: Option<(nat, nat)>,
                        plan': Plan)
    requires Consistent(e) && Keeps(before, e.tables, plan) && SlotAppended(e, s, false, e', op) && op.Some?
    requires Origin(plan', Block(Gpu, op.value.1)) == Origin(plan, Block(Gpu, op.value.0))
    requires forall b :: b != Block(Gpu, op.value.1) ==> Origin(plan', b) == Origin(plan, b)
    ensures Keeps(before, e'.tables, plan')
  {
    hide Consistent, References, Origin;
    forall t, b | t in e.tables && b in e.tables[t] ensures b != Block(Gpu, op.value.1) {
      TableBlockLive(e, t, b);
    }
    forall t | t in before && t in e'.tables
      ensures |before[t]| <= |e'.tables[t]|
      ensures forall j :: 0 <= j < |before[t]| ==> Origin(plan', e'.tables[t][j]) == before[t][j]
    {
      forall j | 0 <= j < |before[t]| ensures Origin(plan', e'.tables[t][j]) == before[t][j] {
        assert e.tables[t][j] in e.tables[t];
      }
    }
  }

  lemma AppendCopyLive(e: Engine, plan: Plan, s: SeqId, e': Engine, op: Option<(nat, nat)>, plan': Plan)
    requires PlanLive(e.tables, plan) && SlotAppended(e, s, false, e', op) && op.Some?
    requires plan' == plan.(copy := plan.copy[op.value.1 := op.value.0])
    ensures PlanLive(e'.tables, plan')
  {
    hide References;
    var src, dst := Block(Gpu, op.value.0), Block(Gpu, op.value.1);
    assert src != dst;
    assert References(e'.tables)[src] == References(e.tables)[src] - 1;
    assert References(e'.tables)[dst] == 1;
    assert forall b :: b != src && b != dst ==> References(e'.tables)[b] == References(e.tables)[b];
  }

  lemma AppendCopyUntouched(own: Owner, e: Engine, plan: Plan, todo: set<nat>, s: SeqId, e': Engine,
                            op: Option<(nat, nat)>, plan': Plan)
    requires Consistent(e) && NoSharing(own, e.tables) && Untouched(own, e.tables, plan, todo)
    requires s in own && own[s] !in todo && SlotAppended(e, s, false, e', op) && op.Some?
    requires plan' == plan.(copy := plan.copy[op.value.1 := op.value.0])
    ensures Untouched(own, e'.tables, plan', todo)
  {
    hide Consistent, References;
    forall t, b | t in e'.tables && b in e'.tables[t] && t in own && own[t] in todo ensures Clean(plan', b) {
      assert t != s && e'.tables[t] == e.tables[t];
      TableBlockLive(e, t, b);
      assert b != Block(Gpu, op.value.1);
      assert Last(e.tables[s]) in e.tables[s];
      assert b != Block(Gpu, op.value.0);
      assert Clean(plan, b);
      forall d | d in plan'.copy && b.dev.Gpu? ensures d != b.id && plan'.copy[d] != b.id {
        if d != op.value.1 {
          assert plan.copy[d] in plan.copy.Values;
        }
      }
    }
  }

  /** A whole group gets its slots. */
  lemma {:induction false} AppendGroupStep(own: Owner, before: Engine, e: Engine, plan: Plan, live: set<nat>,
                                           onCpu: set<nat>, todo: set<nat>, ids: seq<SeqId>, full: set<SeqId>,
                                           copies: map<nat, seq<nat>>) returns (plan': Plan)
    requires StepOk(own, before, e, plan, live, onCpu, todo)
    requires forall s :: s in ids ==> s in own && own[s] !in todo && own[s] !in onCpu
    requires AppendGroup(e, ids, full, copies).Done? && IsCopyInverse(copies, plan.copy)
    ensures var (e', copies') := AppendGroup(e, ids, full, copies).value;
            StepOk(own, before, e', plan', live, onCpu, todo) && IsCopyInverse(copies', plan'.copy)
    ensures plan'.inn == plan.inn && plan'.out == plan.out
    decreases |ids|
  {
    hide StepOk, AppendSlot, IsCopyInverse, AddCopy;
    if ids == [] {
      plan' := plan;
    } else {
      var plan1 := AppendStep(own, before, e, plan, live, onCpu, todo, ids[0], ids[0] in full, copies);
      var (e1, op) := AppendSlot(e, ids[0], ids[0] in full).value;
      plan' := AppendGroupStep(own, before, e1, plan1, live, onCpu, todo, ids[1..], full,
                               if op.Some? then AddCopy(copies, op.value.0, op.value.1) else copies);
    }
  }

  // ----- Sequences that already have their slot

  /** The last block of `s` is counted once, so it is in no other table and nowhere else in its own. */
  ghost predicate OwnsLast(tables: Tables, s: SeqId) {
    s in tables && tables[s] != [] && Last(tables[s]).dev.Gpu? && References(tables)[Last(tables[s])] == 1
  }

  lemma FreeKeepsOthers(own: Owner, e: Engine, ids: seq<SeqId>, g: nat, t: SeqId)
    requires Consistent(e) && NoSharing(own, e.tables) && GroupIs(own, ids, g)
    requires (forall s :: s in ids ==> s in e.tables) && t !in ids && OwnsLast(e.tables, t)
    ensures FreeGroup(e, ids).Done? && OwnsLast(FreeGroup(e, ids).value.tables, t)
  {
    hide Consistent, References, FreeGroup;
    FreeGroupLaw(e, ids);
    var b := Last(e.tables[t]);
    assert b in e.tables[t];
    RemovedTablesCount(e.tables, (set s | s in ids), b);
  }

  lemma MoveKeepsOthers(own: Owner, e: Engine, ids: seq<SeqId>, g: nat, mapping: map<nat, Block>, tables': Tables,
                        t: SeqId)
    requires Consistent(e) && NoSharing(own, e.tables) && GroupIs(own, ids, g)
    requires Moved(e.tables, ids, mapping, tables') && t !in ids && OwnsLast(e.tables, t)
    requires forall k :: k in mapping ==> mapping[k] !in References(e.tables)
    ensures OwnsLast(tables', t)
  {
    hide Consistent, References;
    var b := Last(e.tables[t]);
    assert b in e.tables[t];
    TableBlockLive(e, t, b);
    MovedCount(e.tables, ids, mapping, tables', b);
  }

  lemma SwapOutKeepsOthers(own: Owner, e: Engine, ids: seq<SeqId>, g: nat, onCpu: set<nat>, t: SeqId)
    requires Consistent(e) && NoSharing(own, e.tables) && Placed(own, e.tables, onCpu) && GroupIs(own, ids, g)
    requires g !in onCpu
    requires CanSwapOut(e, ids) && (forall s :: s in ids ==> s in e.tables) && t !in ids && OwnsLast(e.tables, t)
    ensures SwapOut(e, ids).Done? && OwnsLast(SwapOut(e, ids).value.0.tables, t)
  {
    hide Consistent, References, SwapOut, CanSwapOut, Moved, InjectiveTo, GroupBlockIds, OwnsLast;
    var mapping := SwapOutLaw(e, ids);
    MoveKeepsOthers(own, e, ids, g, mapping, SwapOut(e, ids).value.0.tables, t);
  }

  lemma SwapInKeepsOthers(own: Owner, e: Engine, ids: seq<SeqId>, g: nat, onCpu: set<nat>, t: SeqId)
    requires Consistent(e) && NoSharing(own, e.tables) && Placed(own, e.tables, onCpu) && GroupIs(own, ids, g)
    requires g in onCpu
    requires CanSwapIn(e, ids) && (forall s :: s in ids ==> s in e.tables) && t !in ids && OwnsLast(e.tables, t)
    ensures SwapIn(e, ids).Done? && OwnsLast(SwapIn(e, ids).value.0.tables, t)
  {
    hide Consistent, References, SwapIn, CanSwapIn, Moved, InjectiveTo, GroupBlockIds, OwnsLast;
    var mapping := SwapInLaw(e, ids);
    MoveKeepsOthers(own, e, ids, g, mapping, SwapIn(e, ids).value.0.tables, t);
  }

  /** After a group has its slots, its sequences own their last blocks, and so does everyone who did before. */
  lemma AppendGroupOwns(e: Engine, ids: seq<SeqId>, full: set<SeqId>, copies: map<nat, seq<nat>>, t: SeqId)
    requires Consistent(e) && NoDup(ids) && AppendGroup(e, ids, full, copies).Done?
    ensures t in ids ==> OwnsLast(AppendGroup(e, ids, full, copies).value.0.tables, t)
    ensures t !in ids && OwnsLast(e.tables, t) ==> OwnsLast(AppendGroup(e, ids, full, copies).value.0.tables, t)
  {
    hide Consistent, References, AppendGroup, NoDup;
    AppendGroupLaw(e, ids, full, copies);
  }
}
