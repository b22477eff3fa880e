/** Reserving a slot for the next token: exact success conditions, exclusivity and copy counts. */
module AppendLaws {
  import opened Outcomes
  import opened Pools
  import opened Engine

  function Last(table: Table): Block
    requires table != []
  {
    table[|table| - 1]
  }

  /** When `append_token_slot_to_seq` does not panic. */
  predicate CanAppendSlot(e: Engine, s: SeqId, needsBlock: bool) {
    && s in e.tables
    && if needsBlock then e.pools.gpuFree != []
       else && e.tables[s] != [] && Last(e.tables[s]).dev.Gpu? && Last(e.tables[s]) in e.pools.refs
            && (e.pools.refs[Last(e.tables[s])] == 1 || e.pools.gpuFree != [])
  }

  /** The effect of one successful append: a new block, nothing, or a private copy of a shared last block. */
  ghost predicate SlotAppended(e: Engine, s: SeqId, needsBlock: bool, e': Engine, op: Option<(nat, nat)>) {
    && s in e.tables && s in e'.tables && e'.tables == e.tables[s := e'.tables[s]]
    && e'.pools.refs.Keys == e.pools.refs.Keys && e'.pools.cpuFree == e.pools.cpuFree
    && e'.tables[s] != [] && Last(e'.tables[s]).dev.Gpu?
    && if needsBlock then
         && op.None? && e'.tables[s] == e.tables[s] + [Last(e'.tables[s])]
         && Last(e'.tables[s]) !in References(e.tables)
         && References(e'.tables) == References(e.tables) + multiset{Last(e'.tables[s])}
         && |e'.pools.gpuFree| == |e.pools.gpuFree| - 1
       else if op.None? then
         e' == e && References(e.tables)[Last(e.tables[s])] == 1
       else
         && e.tables[s] != []
         && Last(e.tables[s]) == Block(Gpu, op.value.0) && References(e.tables)[Block(Gpu, op.value.0)] >= 2
         && Last(e'.tables[s]) == Block(Gpu, op.value.1) && Block(Gpu, op.value.1) !in References(e.tables)
         && e'.tables[s] == e.tables[s][|e.tables[s]| - 1 := Block(Gpu, op.value.1)]
         && References(e'.tables)
            == References(e.tables) + multiset{Block(Gpu, op.value.1)} - multiset{Block(Gpu, op.value.0)}
         && |e'.pools.gpuFree| == |e.pools.gpuFree| - 1
  }

  lemma AppendSlotLaw(e: Engine, s: SeqId, needsBlock: bool)
    requires Consistent(e)
    ensures AppendSlot(e, s, needsBlock).Done? <==> CanAppendSlot(e, s, needsBlock)
    ensures AppendSlot(e, s, needsBlock).Done? ==>
              var (e', op) := AppendSlot(e, s, needsBlock).value;
              && Consistent(e') && SlotAppended(e, s, needsBlock, e', op)
              && References(e'.tables)[Last(e'.tables[s])] == 1
  {
    hide Accounted, FreeListOk, References;
    var m := References(e.tables);
    AllocAccounted(e.pools, m, Gpu);
    if CanAppendSlot(e, s, needsBlock) {
      if needsBlock {
        PushBlockLaw(e, s);
      } else {
        TableBlockLive(e, s, Last(e.tables[s]));
        CountIs(e, Last(e.tables[s]));
        if e.pools.refs[Last(e.tables[s])] != 1 {
          CopyOnWriteLaw(e, s);
        }
      }
    }
  }

  lemma CountIs(e: Engine, b: Block)
    requires Consistent(e)
    ensures b in e.pools.refs ==> e.pools.refs[b] == References(e.tables)[b]
    ensures b !in e.pools.refs ==> References(e.tables)[b] == 0
  {
  }

  lemma PushBlockLaw(e: Engine, s: SeqId)
    requires Consistent(e) && s in e.tables && e.pools.gpuFree != []
    ensures AppendSlot(e, s, true).Done?
    ensures var (e', op) := AppendSlot(e, s, true).value;
            && Consistent(e') && SlotAppended(e, s, true, e', op)
            && References(e'.tables)[Last(e'.tables[s])] == 1
  {
    hide Accounted, References;
    var m := References(e.tables);
    AllocAccounted(e.pools, m, Gpu);
    var (p, b) := Alloc(e.pools, Gpu).value;
    assert p.FreeList(Cpu) == e.pools.FreeList(Cpu);
    var table := e.tables[s];
    ReferencesUpdate(e.tables, s, table + [b]);
    assert multiset(table + [b]) == multiset(table) + multiset{b};
    assert References(e.tables[s := table + [b]]) == m + multiset{b};
  }

  lemma CopyOnWriteLaw(e: Engine, s: SeqId)
    requires Consistent(e) && s in e.tables && e.pools.gpuFree != []
    requires e.tables[s] != [] && Last(e.tables[s]).dev.Gpu?
    requires References(e.tables)[Last(e.tables[s])] >= 2
    ensures AppendSlot(e, s, false).Done?
    ensures var (e', op) := AppendSlot(e, s, false).value;
            && op.Some? && Consistent(e') && SlotAppended(e, s, false, e', op)
            && References(e'.tables)[Last(e'.tables[s])] == 1
  {
    hide Accounted, References, Release, Alloc;
    var m := References(e.tables);
    var table, last := e.tables[s], Last(e.tables[s]);
    var p, b, q := ExchangeLaw(e.pools, m, last);
    var table' := table[|table| - 1 := b];
    ReferencesUpdate(e.tables, s, table');
    ReplaceLast(table, b);
    assert References(e.tables[s := table']) == m + multiset{b} - multiset{last};
    assert AppendSlot(e, s, false) == Done((Engine(q, e.tables[s := table']), Some((last.id, b.id))));
  }

  /** Allocating a block and then dropping one reference to a shared one. */
  lemma ExchangeLaw(p: Pools, m: multiset<Block>, last: Block) returns (p1: Pools, b: Block, q: Pools)
    requires Accounted(p, m) && p.gpuFree != [] && last.dev.Gpu? && m[last] >= 2
    ensures last in p.refs && p.refs[last] == m[last]
    ensures Alloc(p, Gpu) == Done((p1, b)) && Release(p1, Gpu, last) == Done(q)
    ensures b.dev.Gpu? && b !in m && Accounted(q, m + multiset{b} - multiset{last})
    ensures q.refs.Keys == p.refs.Keys && q.cpuFree == p.cpuFree && |q.gpuFree| == |p.gpuFree| - 1
  {
    AllocAccounted(p, m, Gpu);
    p1, b := Alloc(p, Gpu).value.0, Alloc(p, Gpu).value.1;
    assert p1.FreeList(Cpu) == p.FreeList(Cpu);
    ReleaseAccounted(p1, m + multiset{b}, last);
    q := Release(p1, Gpu, last).value;
    ReleaseShared(p1, last);
  }

  lemma ReleaseShared(p: Pools, b: Block)
    requires b in p.refs && p.refs[b] >= 2
    ensures Release(p, b.dev, b).Done? && Release(p, b.dev, b).value.gpuFree == p.gpuFree
  {
  }

  lemma ReplaceLast(table: Table, b: Block)
    requires table != []
    ensures multiset(table[|table| - 1 := b]) == multiset(table) - multiset{Last(table)} + multiset{b}
  {
    var n := |table| - 1;
    assert table == table[..n] + [table[n]];
    assert table[n := b] == table[..n] + [b];
  }

  // ----- Whole groups

  /** A table before and after its slot was reserved: only the last entry may differ or be new. */
  ghost predicate Extended(table: Table, isFull: bool, table': Table) {
    && table' != [] && Last(table').dev.Gpu?
    && |table'| == |table| + (if isFull then 1 else 0)
    && (forall j :: 0 <= j < |table'| - 1 ==> table'[j] == table[j])
  }

  lemma AppendOne(e: Engine, s: SeqId, needsBlock: bool, t: SeqId, c: Block)
    requires Consistent(e) && AppendSlot(e, s, needsBlock).Done?
    ensures var (e', op) := AppendSlot(e, s, needsBlock).value;
            && s in e.tables && s in e'.tables && Extended(e.tables[s], needsBlock, e'.tables[s])
            && e'.tables.Keys == e.tables.Keys
            && (t in e.tables && t != s ==> e'.tables[t] == e.tables[t])
            && (References(e.tables)[c] == 1 ==> References(e'.tables)[c] == 1)
  {
    hide Consistent, AppendSlot, References;
    AppendSlotLaw(e, s, needsBlock);
  }

  /**
   After a slot is appended to a group, the last block of every sequence is a GPU block counted once,
   and only last entries have changed.
   */
  lemma {:induction false} AppendGroupLaw(e: Engine, ids: seq<SeqId>, full: set<SeqId>, copies: map<nat, seq<nat>>)
    requires Consistent(e) && NoDup(ids)
    requires AppendGroup(e, ids, full, copies).Done?
    ensures var (e', copies') := AppendGroup(e, ids, full, copies).value;
            && Consistent(e') && e'.tables.Keys == e.tables.Keys
            && e'.pools.refs.Keys == e.pools.refs.Keys
            && (forall c :: References(e.tables)[c] == 1 ==> References(e'.tables)[c] == 1)
            && (forall t :: t in e.tables && t !in ids ==> e'.tables[t] == e.tables[t])
            && (forall s :: s in ids ==>
                  && s in e.tables && Extended(e.tables[s], s in full, e'.tables[s])
                  && References(e'.tables)[Last(e'.tables[s])] == 1)
    decreases |ids|
  {
    hide Consistent, AppendSlot, References, NoDup, Extended;
    if ids != [] {
      NoDupTail(ids);
      var s := ids[0];
      AppendSlotLaw(e, s, s in full);
      var (e1, op) := AppendSlot(e, s, s in full).value;
      forall t, c
        ensures s in e.tables && s in e1.tables && Extended(e.tables[s], s in full, e1.tables[s])
        ensures e1.tables.Keys == e.tables.Keys && (t in e.tables && t != s ==> e1.tables[t] == e.tables[t])
        ensures References(e.tables)[c] == 1 ==> References(e1.tables)[c] == 1
      {
        AppendOne(e, s, s in full, t, c);
      }
      AppendGroupLaw(e1, ids[1..], full, if op.Some? then AddCopy(copies, op.value.0, op.value.1) else copies);
    }
  }

  /** The last blocks of the sequences that need no new block. */
  ghost function OpenLasts(tables: Tables, ids: seq<SeqId>, full: set<SeqId>): set<Block> {
    set s | s in ids && s !in full && s in tables && tables[s] != [] :: Last(tables[s])
  }

  /** How many of the listed sequences have `b` as their open last block. */
  ghost function OpenCount(tables: Tables, ids: seq<SeqId>, full: set<SeqId>, b: Block): nat {
    if ids == [] then 0
    else (if ids[0] !in full && ids[0] in tables && tables[ids[0]] != [] && Last(tables[ids[0]]) == b then 1 else 0)
         + OpenCount(tables, ids[1..], full, b)
  }

  lemma {:induction false} OpenCountPositive(tables: Tables, ids: seq<SeqId>, full: set<SeqId>, b: Block)
    ensures OpenCount(tables, ids, full, b) > 0 <==> b in OpenLasts(tables, ids, full)
    decreases |ids|
  {
    if ids != [] {
      OpenCountPositive(tables, ids[1..], full, b);
      assert ids == [ids[0]] + ids[1..];
    }
  }

  lemma {:induction false} OpenCountOther(tables: Tables, ids: seq<SeqId>, full: set<SeqId>, b: Block, s: SeqId,
                                          table: Table)
    requires s !in ids
    ensures OpenCount(tables[s := table], ids, full, b) == OpenCount(tables, ids, full, b)
    ensures OpenLasts(tables[s := table], ids, full) == OpenLasts(tables, ids, full)
    decreases |ids|
  {
    var tables' := tables[s := table];
    assert forall t :: t in ids ==> (t in tables' <==> t in tables) && (t in tables ==> tables'[t] == tables[t]);
    if ids != [] {
      OpenCountOther(tables, ids[1..], full, b, s, table);
    }
  }

  lemma {:induction false} OpenCountAtMost(tables: Tables, ids: seq<SeqId>, full: set<SeqId>, b: Block)
    requires NoDup(ids)
    ensures OpenCount(tables, ids, full, b) <= References(tables)[b]
    decreases |ids|
  {
    hide NoDup;
    if ids != [] {
      NoDupTail(ids);
      var s, rest := ids[0], ids[1..];
      if s in tables {
        ReferencesSplit(tables, s);
        OpenCountAtMost(tables - {s}, rest, full, b);
        OpenCountOther(tables - {s}, rest, full, b, s, tables[s]);
        assert (tables - {s})[s := tables[s]] == tables;
      } else {
        OpenCountAtMost(tables, rest, full, b);
      }
    }
  }

  /** Every listed sequence has a table, and those that get no new block end in a GPU block. */
  ghost predicate Appendable(e: Engine, ids: seq<SeqId>, full: set<SeqId>) {
    forall s :: s in ids ==>
      s in e.tables && (s !in full ==> e.tables[s] != [] && Last(e.tables[s]).dev.Gpu?)
  }

  /**
   The open last blocks that nothing but the open ends of these sequences refers to: one sequence keeps such a block.
   */
  ghost function OwnedLasts(e: Engine, ids: seq<SeqId>, full: set<SeqId>): set<Block> {
    set b | b in OpenLasts(e.tables, ids, full) && References(e.tables)[b] == OpenCount(e.tables, ids, full, b)
  }

  /** How many of these sequences leave `b` for a copy of their own. */
  ghost function Dropped(e: Engine, ids: seq<SeqId>, full: set<SeqId>, b: Block): nat {
    var n := OpenCount(e.tables, ids, full, b);
    if n > 0 && References(e.tables)[b] == n then n - 1 else n
  }

  /** The first append, seen from one block: references and the copies still to come. */
  lemma AppendAtBlock(e: Engine, ids: seq<SeqId>, full: set<SeqId>, e1: Engine, op: Option<(nat, nat)>, b: Block)
    requires ids != [] && NoDup(ids) && Appendable(e, ids, full) && b in References(e.tables)
    requires SlotAppended(e, ids[0], ids[0] in full, e1, op)
    ensures var copied := if op.Some? && b == Block(Gpu, op.value.0) then 1 else 0;
            && References(e1.tables)[b] == References(e.tables)[b] - copied
            && Dropped(e, ids, full, b) == Dropped(e1, ids[1..], full, b) + copied
    ensures OpenCount(e1.tables, ids[1..], full, b) == OpenCount(e.tables, ids[1..], full, b)
  {
    hide References, NoDup, OpenLasts;
    NoDupTail(ids);
    assert ids[0] in ids;
    OpenCountOther(e.tables, ids[1..], full, b, ids[0], e1.tables[ids[0]]);
    OpenCountAtMost(e.tables, ids, full, b);
  }

  lemma AppendableStep(e: Engine, ids: seq<SeqId>, full: set<SeqId>, e1: Engine, op: Option<(nat, nat)>)
    requires ids != [] && NoDup(ids) && SlotAppended(e, ids[0], ids[0] in full, e1, op)
    requires ids[0] !in full ==> e.tables[ids[0]] != [] && Last(e.tables[ids[0]]).dev.Gpu?
    ensures Appendable(e, ids, full) <==> Appendable(e1, ids[1..], full)
  {
    hide NoDup, References;
    NoDupTail(ids);
    var s, rest := ids[0], ids[1..];
    assert forall t :: t in rest ==>
             t != s && (t in e.tables <==> t in e1.tables) && (t in e.tables ==> e1.tables[t] == e.tables[t]);
  }

  /** The first append takes its own last block off the owned ones exactly when it keeps it. */
  lemma OwnedStep(e: Engine, ids: seq<SeqId>, full: set<SeqId>, e1: Engine, op: Option<(nat, nat)>)
    requires ids != [] && NoDup(ids) && Appendable(e, ids, full) && Consistent(e)
    requires SlotAppended(e, ids[0], ids[0] in full, e1, op)
    ensures var s := ids[0];
            && ids[0] in e.tables && (s !in full ==> e.tables[s] != [])
            && (s !in full && op.None? ==> Last(e.tables[s]) in OwnedLasts(e, ids, full))
            && OwnedLasts(e1, ids[1..], full)
               == OwnedLasts(e, ids, full) - (if s !in full && op.None? then {Last(e.tables[s])} else {})
  {
    hide References, NoDup, OpenLasts, Consistent, SlotAppended;
    var s, rest := ids[0], ids[1..];
    assert s in ids;
    var gone := if s !in full && op.None? then {Last(e.tables[s])} else {};
    forall b ensures b in OwnedLasts(e1, rest, full) <==> b in OwnedLasts(e, ids, full) && b !in gone {
      OwnedStepAt(e, ids, full, e1, op, b);
    }
    if s !in full && op.None? {
      OwnedStepAt(e, ids, full, e1, op, Last(e.tables[s]));
    }
  }

  lemma OwnedStepAt(e: Engine, ids: seq<SeqId>, full: set<SeqId>, e1: Engine, op: Option<(nat, nat)>, b: Block)
    requires ids != [] && NoDup(ids) && Appendable(e, ids, full) && Consistent(e)
    requires SlotAppended(e, ids[0], ids[0] in full, e1, op)
    ensures ids[0] in e.tables && (ids[0] !in full ==> e.tables[ids[0]] != [])
    ensures var keeps := ids[0] !in full && op.None? && b == Last(e.tables[ids[0]]);
            && (keeps ==> b in OwnedLasts(e, ids, full))
            && (b in OwnedLasts(e1, ids[1..], full) <==> b in OwnedLasts(e, ids, full) && !keeps)
  {
    hide References, NoDup, OpenLasts, Consistent;
    var s, rest := ids[0], ids[1..];
    assert s in ids;
    NoDupTail(ids);
    OpenCountOther(e.tables, rest, full, b, s, e1.tables[s]);
    OpenCountPositive(e.tables, ids, full, b);
    OpenCountPositive(e1.tables, rest, full, b);
    OpenCountAtMost(e.tables, ids, full, b);
    if b in References(e.tables) {
      AppendAtBlock(e, ids, full, e1, op, b);
    }
  }

  lemma OpenLastsBound(tables: Tables, ids: seq<SeqId>, full: set<SeqId>)
    ensures |OpenLasts(tables, ids, full)| <= |ids|
    decreases |ids|
  {
    if ids == [] {
      assert OpenLasts(tables, ids, full) == {};
    } else {
      OpenLastsBound(tables, ids[1..], full);
      assert ids == [ids[0]] + ids[1..];
      var rest := OpenLasts(tables, ids[1..], full);
      if ids[0] in tables && tables[ids[0]] != [] && ids[0] !in full {
        assert OpenLasts(tables, ids, full) == rest + {Last(tables[ids[0]])};
      } else {
        assert OpenLasts(tables, ids, full) == rest;
      }
    }
  }

  /** Unless the first sequence keeps its last block, the owned blocks are last blocks of the others. */
  lemma OwnedBound(e: Engine, ids: seq<SeqId>, full: set<SeqId>)
    requires ids != [] && NoDup(ids) && Appendable(e, ids, full)
    ensures |OwnedLasts(e, ids, full)| <= |ids|
    ensures ids[0] in full || References(e.tables)[Last(e.tables[ids[0]])] != 1 ==> |OwnedLasts(e, ids, full)| < |ids|
  {
    hide References, NoDup, OpenLasts;
    assert ids[0] in ids;
    var owned, lasts := OwnedLasts(e, ids, full), OpenLasts(e.tables, ids[1..], full);
    OpenLastsBound(e.tables, ids, full);
    OpenLastsBound(e.tables, ids[1..], full);
    SubsetSize(owned, OpenLasts(e.tables, ids, full));
    if ids[0] in full || References(e.tables)[Last(e.tables[ids[0]])] != 1 {
      forall b | b in owned ensures b in lasts {
        OpenCountPositive(e.tables, ids, full, b);
        OpenCountPositive(e.tables, ids[1..], full, b);
      }
      SubsetSize(owned, lasts);
    }
  }

  lemma SubsetSize(a: set<Block>, b: set<Block>)
    requires a <= b
    ensures |a| <= |b|
  {
    assert b == a + (b - a);
  }

  /**
   A group gets its slots exactly when every sequence has a table, the open ones end on the GPU, and the pool can
   supply one block per sequence less one per owned last block. `can_append_token_to_seq` counts only the full
   sequences.
   */
  lemma {:induction false} AppendGroupIff(e: Engine, ids: seq<SeqId>, full: set<SeqId>, copies: map<nat, seq<nat>>)
    requires Consistent(e) && NoDup(ids)
    ensures AppendGroup(e, ids, full, copies).Done? <==>
            Appendable(e, ids, full) && |ids| - |OwnedLasts(e, ids, full)| <= |e.pools.gpuFree|
    decreases |ids|
  {
    hide Consistent, AppendSlot, References, NoDup, OwnedLasts, SlotAppended, Appendable;
    if ids == [] {
      assert OwnedLasts(e, ids, full) == {} && Appendable(e, ids, full) by { NothingOwned(e, full); }
    } else {
      var s := ids[0];
      AppendSlotLaw(e, s, s in full);
      if AppendSlot(e, s, s in full).Done? {
        var (e1, op) := AppendSlot(e, s, s in full).value;
        FirstPlaced(e, ids, full);
        AppendableStep(e, ids, full, e1, op);
        NoDupTail(ids);
        FreeAfterAppend(e, s, s in full, e1, op);
        AppendGroupIff(e1, ids[1..], full, if op.Some? then AddCopy(copies, op.value.0, op.value.1) else copies);
        if Appendable(e, ids, full) {
          OwnedStep(e, ids, full, e1, op);
        }
      } else if Appendable(e, ids, full) {
        FirstPlaced(e, ids, full);
        OwnedBound(e, ids, full);
      }
    }
  }

  lemma NothingOwned(e: Engine, full: set<SeqId>)
    ensures OwnedLasts(e, [], full) == {} && Appendable(e, [], full)
  {
  }

  /** When the first sequence of a group can get its slot, in terms of references. */
  lemma FirstPlaced(e: Engine, ids: seq<SeqId>, full: set<SeqId>)
    requires Consistent(e) && ids != []
    ensures CanAppendSlot(e, ids[0], ids[0] in full) && ids[0] !in full ==>
              e.tables[ids[0]] != [] && Last(e.tables[ids[0]]).dev.Gpu?
    ensures Appendable(e, ids, full) ==>
              && ids[0] in e.tables
              && (CanAppendSlot(e, ids[0], ids[0] in full) <==>
                  e.pools.gpuFree != [] || (ids[0] !in full && References(e.tables)[Last(e.tables[ids[0]])] == 1))
  {
    hide References, Accounted;
    var s := ids[0];
    assert s in ids;
    if Appendable(e, ids, full) && s !in full {
      TableBlockLive(e, s, Last(e.tables[s]));
      CountIs(e, Last(e.tables[s]));
    }
  }

  lemma FreeAfterAppend(e: Engine, s: SeqId, needsBlock: bool, e1: Engine, op: Option<(nat, nat)>)
    requires SlotAppended(e, s, needsBlock, e1, op)
    ensures |e1.pools.gpuFree| == |e.pools.gpuFree| - (if needsBlock || op.Some? then 1 else 0)
  {
  }

  function CopiesFrom(copies: map<nat, seq<nat>>, src: nat): nat {
    if src in copies then |copies[src]| else 0
  }

  /**
   What the appends of a group do to a block in use: the sequences that leave it are those with an open end in it, all
   but one when nothing else refers to it; each causes one copy of the block and takes one reference from it.
   */
  lemma {:induction false} AppendGroupCounts(e: Engine, ids: seq<SeqId>, full: set<SeqId>, copies: map<nat, seq<nat>>,
                                             b: Block)
    requires Consistent(e) && NoDup(ids) && b in References(e.tables)
    requires AppendGroup(e, ids, full, copies).Done?
    ensures var (e', copies') := AppendGroup(e, ids, full, copies).value;
            && References(e'.tables)[b] == References(e.tables)[b] - Dropped(e, ids, full, b)
            && (b.dev.Gpu? ==> CopiesFrom(copies', b.id) - CopiesFrom(copies, b.id) == Dropped(e, ids, full, b))
    decreases |ids|
  {
    hide Consistent, AppendSlot, References, NoDup, SlotAppended, Appendable, Dropped;
    if ids == [] {
      NothingDropped(e, full, b);
    } else {
      var s := ids[0];
      NoDupTail(ids);
      AppendGroupIff(e, ids, full, copies);
      AppendSlotLaw(e, s, s in full);
      var (e1, op) := AppendSlot(e, s, s in full).value;
      AppendAtBlock(e, ids, full, e1, op, b);
      StillReferenced(e, ids, full, b);
      AppendGroupCounts(e1, ids[1..], full, if op.Some? then AddCopy(copies, op.value.0, op.value.1) else copies, b);
    }
  }

  lemma NothingDropped(e: Engine, full: set<SeqId>, b: Block)
    ensures Dropped(e, [], full, b) == 0
  {
  }

  /** A block in use stays in use. */
  lemma StillReferenced(e: Engine, ids: seq<SeqId>, full: set<SeqId>, b: Block)
    requires NoDup(ids) && b in References(e.tables)
    ensures Dropped(e, ids, full, b) < References(e.tables)[b]
  {
    hide References;
    OpenCountAtMost(e.tables, ids, full, b);
  }

  /** `n` sequences that share one open last block with nothing else cause exactly `n - 1` copies of it. */
  lemma CopiesOfSharedLast(e: Engine, ids: seq<SeqId>, full: set<SeqId>, copies: map<nat, seq<nat>>, x: nat)
    requires Consistent(e) && NoDup(ids) && Block(Gpu, x) in OwnedLasts(e, ids, full)
    requires AppendGroup(e, ids, full, copies).Done?
    ensures var n := OpenCount(e.tables, ids, full, Block(Gpu, x));
            && n > 0 && CopiesFrom(AppendGroup(e, ids, full, copies).value.1, x) - CopiesFrom(copies, x) == n - 1
            && References(AppendGroup(e, ids, full, copies).value.0.tables)[Block(Gpu, x)] == 1
  {
    hide Consistent, References, AppendGroup, NoDup, OpenLasts;
    OpenCountPositive(e.tables, ids, full, Block(Gpu, x));
    AppendGroupCounts(e, ids, full, copies, Block(Gpu, x));
  }
}
