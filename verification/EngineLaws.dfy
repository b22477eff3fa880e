/** What each block-engine operation does to consistent tables. */
module EngineLaws {
  import opened Outcomes
  import opened Pools
  import opened Engine

  // ----- allocate

  lemma {:induction false} AllocTableLaw(p: Pools, m: multiset<Block>, n: nat, table: Table)
    requires Accounted(p, m + multiset(table))
    requires NoDup(table) && (forall b :: b in table ==> b.dev.Gpu? && b !in m)
    ensures AllocTable(p, n, table).Done? <==> n <= |p.gpuFree|
    ensures AllocTable(p, n, table).Done? ==>
              var (q, t) := AllocTable(p, n, table).value;
              && |t| == |table| + n
              && Accounted(q, m + multiset(t)) && q.refs.Keys == p.refs.Keys
              && NoDup(t) && (forall b :: b in t ==> b.dev.Gpu? && b !in m)
              && |q.gpuFree| == |p.gpuFree| - n && q.cpuFree == p.cpuFree
    decreases n
  {
    AllocAccounted(p, m + multiset(table), Gpu);
    if n > 0 && p.gpuFree != [] {
      var (q, b) := Alloc(p, Gpu).value;
      assert q.FreeList(Cpu) == p.FreeList(Cpu);
      assert m + multiset(table + [b]) == m + multiset(table) + multiset{b};
      AllocTableLaw(q, m, n - 1, table + [b]);
    }
  }

  /** For a group of one sequence: succeeds iff enough blocks are free, and then keeps the accounting. */
  lemma AllocateLaw(e: Engine, s: SeqId, n: nat)
    requires Consistent(e) && s !in e.tables
    ensures Allocate(e, [s], n).Done? <==> n <= |e.pools.gpuFree|
    ensures Allocate(e, [s], n).Done? ==>
              var e' := Allocate(e, [s], n).value;
              && Consistent(e') && e'.pools.refs.Keys == e.pools.refs.Keys
              && s in e'.tables && e'.tables == e.tables[s := e'.tables[s]]
              && |e'.tables[s]| == n && NoDup(e'.tables[s])
              && (forall b :: b in e'.tables[s] ==> b.dev.Gpu? && b !in References(e.tables))
              && |e'.pools.gpuFree| == |e.pools.gpuFree| - n
  {
    var m := References(e.tables);
    assert m + multiset([]) == m;
    AllocTableLaw(e.pools, m, n, []);
    if n <= |e.pools.gpuFree| {
      var (q, table) := AllocTable(e.pools, n, []).value;
      assert InsertAll(e.tables, [s], table) == e.tables[s := table];
      ReferencesUpdate(e.tables, s, table);
      assert e.tables - {s} == e.tables;
    }
  }

  lemma {:induction false} InsertAllReferences(tables: Tables, ids: seq<SeqId>, table: Table, b: Block)
    requires NoDup(ids) && NoDup(table) && (forall s :: s in ids ==> s !in tables)
    ensures References(InsertAll(tables, ids, table))[b] == References(tables)[b] + if b in table then |ids| else 0
    decreases |ids|
  {
    hide NoDup, References;
    if ids != [] {
      NoDupTail(ids);
      ReferencesUpdate(tables, ids[0], table);
      assert tables - {ids[0]} == tables;
      InsertAllReferences(tables[ids[0] := table], ids[1..], table, b);
      NoDupCount(table, b);
    }
  }

  /**
   `allocate` writes count 1 whatever the size of the group. It keeps the accounting exactly when the
   group has one sequence or the table is empty.
   */
  lemma AllocateKeepsAccountingIff(e: Engine, ids: seq<SeqId>, n: nat)
    requires Consistent(e) && ids != [] && NoDup(ids)
    requires forall s :: s in ids ==> s !in e.tables
    requires n <= |e.pools.gpuFree|
    ensures Allocate(e, ids, n).Done?
    ensures Consistent(Allocate(e, ids, n).value) <==> |ids| == 1 || n == 0
  {
    hide References, AllocTable, InsertAll, NoDup, FreeListOk;
    var m := References(e.tables);
    assert m + multiset([]) == m;
    AllocTableLaw(e.pools, m, n, []) by {
      EmptyNoDup<Block>();
    }
    var (q, table) := AllocTable(e.pools, n, []).value;
    var tables' := InsertAll(e.tables, ids, table);
    if |ids| == 1 || n == 0 {
      forall b ensures References(tables')[b] == (m + multiset(table))[b] {
        InsertAllReferences(e.tables, ids, table, b);
        NoDupCount(table, b);
      }
      assert References(tables') == m + multiset(table);
    } else {
      var b := table[0];
      InsertAllReferences(e.tables, ids, table, b);
      NoDupCount(table, b);
      assert (m + multiset(table))[b] == 1;
    }
  }

  // ----- free

  lemma {:induction false} ReleaseAllLaw(p: Pools, m: multiset<Block>, table: Table)
    requires Accounted(p, m + multiset(table))
    ensures ReleaseAll(p, table).Done?
    ensures var q := ReleaseAll(p, table).value;
            && Accounted(q, m) && q.refs.Keys == p.refs.Keys
            && |q.gpuFree| >= |p.gpuFree|
            && ((forall b :: b in table ==> b.dev.Gpu?) ==> q.cpuFree == p.cpuFree)
    decreases |table|
  {
    if table == [] {
      assert m + multiset(table) == m;
    } else {
      assert table == [table[0]] + table[1..];
      ReleaseAccounted(p, m + multiset(table), table[0]);
      assert m + multiset(table) - multiset{table[0]} == m + multiset(table[1..]);
      var q := Release(p, table[0].dev, table[0]).value;
      assert q.FreeList(Gpu) == q.gpuFree && p.FreeList(Gpu) == p.gpuFree;
      assert q.FreeList(Cpu) == q.cpuFree && p.FreeList(Cpu) == p.cpuFree;
      ReleaseAllLaw(q, m, table[1..]);
    }
  }

  lemma FreeSequenceLaw(e: Engine, s: SeqId)
    requires Consistent(e) && s in e.tables
    ensures FreeSequence(e, s).Done?
    ensures var e' := FreeSequence(e, s).value;
            && Consistent(e') && e'.tables == e.tables - {s}
            && e'.pools.refs.Keys == e.pools.refs.Keys
            && |e'.pools.gpuFree| >= |e.pools.gpuFree|
            && ((forall b :: b in e.tables[s] ==> b.dev.Gpu?) ==> e'.pools.cpuFree == e.pools.cpuFree)
  {
    ReferencesSplit(e.tables, s);
    assert References(e.tables) == References(e.tables - {s}) + multiset(e.tables[s]);
    ReleaseAllLaw(e.pools, References(e.tables - {s}), e.tables[s]);
  }

  lemma {:induction false} FreeGroupLaw(e: Engine, ids: seq<SeqId>)
    requires Consistent(e) && NoDup(ids) && (forall s :: s in ids ==> s in e.tables)
    ensures FreeGroup(e, ids).Done?
    ensures var e' := FreeGroup(e, ids).value;
            && Consistent(e') && e'.tables == e.tables - (set s | s in ids)
            && e'.pools.refs.Keys == e.pools.refs.Keys
            && |e'.pools.gpuFree| >= |e.pools.gpuFree|
            && ((forall s, b :: s in ids && b in e.tables[s] ==> b.dev.Gpu?) ==> e'.pools.cpuFree == e.pools.cpuFree)
    decreases |ids|
  {
    hide Consistent, FreeSequence, NoDup;
    if ids != [] {
      NoDupTail(ids);
      FreeSequenceLaw(e, ids[0]);
      var e' := FreeSequence(e, ids[0]).value;
      FreeGroupLaw(e', ids[1..]);
      assert e.tables - (set s | s in ids) == e'.tables - (set s | s in ids[1..]);
    }
  }

  /** The count of a block outside the removed tables does not change. */
  lemma {:induction false} RemovedTablesCount(tables: Tables, gone: set<SeqId>, b: Block)
    requires forall s :: s in gone && s in tables ==> b !in tables[s]
    ensures References(tables - gone)[b] == References(tables)[b]
    decreases |tables|
  {
    if s :| s in gone && s in tables {
      ReferencesSplit(tables, s);
      RemovedTablesCount(tables - {s}, gone, b);
      assert tables - {s} - gone == tables - gone;
    } else {
      assert tables - gone == tables;
    }
  }

  // ----- swap

  /** `table` with every block replaced by the one `mapping` gives for its id. */
  ghost predicate Renamed(table: Table, mapping: map<nat, Block>, table': Table) {
    && |table'| == |table|
    && (forall i :: 0 <= i < |table| ==> table[i].id in mapping && table'[i] == mapping[table[i].id])
  }

  ghost predicate InjectiveTo(mapping: map<nat, Block>, d: Device) {
    && (forall k :: k in mapping ==> mapping[k].dev == d)
    && (forall k, l :: k in mapping && l in mapping && mapping[k] == mapping[l] ==> k == l)
  }

  /** `mapping'` extends `mapping` by blocks outside `m`. */
  ghost predicate Extends(mapping: map<nat, Block>, mapping': map<nat, Block>, m: multiset<Block>) {
    && mapping.Keys <= mapping'.Keys
    && (forall k :: k in mapping ==> mapping'[k] == mapping[k])
    && (forall k :: k in mapping' && k !in mapping ==> mapping'[k] !in m)
  }

  lemma MapBlockLaw(p: Pools, m: multiset<Block>, to: Device, mapping: map<nat, Block>, b: Block)
    requires Accounted(p, m) && InjectiveTo(mapping, to) && b in m && b.dev != to
    requires forall k :: k in mapping ==> mapping[k] in m
    requires |p.FreeList(to)| > 0
    ensures MapBlock(p, to, mapping, b).Done?
    ensures var (q, mapping', c) := MapBlock(p, to, mapping, b).value;
            && Accounted(q, m + multiset{c}) && q.refs.Keys == p.refs.Keys
            && InjectiveTo(mapping', to) && Extends(mapping, mapping', m)
            && mapping'.Keys == mapping.Keys + {b.id} && mapping'[b.id] == c
            && |q.FreeList(to)| >= |p.FreeList(to)| - 1
  {
    if b.id in mapping {
      RetainAccounted(p, m, mapping[b.id]);
    } else {
      AllocAccounted(p, m, to);
      var (q, c) := Alloc(p, to).value;
      assert forall k :: k in mapping ==> mapping[k] != c;
    }
  }

  /** The ids of the blocks of a table. */
  ghost function TableIds(table: Table): set<nat> {
    set b | b in table :: b.id
  }

  lemma RenamedCons(table: Table, mapping: map<nat, Block>, c: Block, moved: Table, m: multiset<Block>)
    requires table != []
    requires table[0].id in mapping && c == mapping[table[0].id]
    requires Renamed(table[1..], mapping, moved)
    ensures Renamed(table, mapping, [c] + moved)
    ensures TableIds(table) == {table[0].id} + TableIds(table[1..])
    ensures m + multiset{c} + multiset(moved) == m + multiset([c] + moved)
  {
    assert table == [table[0]] + table[1..];
  }

  lemma ExtendsTrans(a: map<nat, Block>, b: map<nat, Block>, c: map<nat, Block>, m: multiset<Block>,
                     m1: multiset<Block>, m2: multiset<Block>)
    requires Extends(a, b, m1) && Extends(b, c, m2) && m <= m1 && m <= m2
    ensures Extends(a, c, m)
    ensures forall k :: k in b ==> k in c && c[k] == b[k]
  {
  }

  /** `table` has been moved to `moved`: accounting kept, mapping extended by exactly the ids of `table`. */
  ghost predicate TableMoved(p: Pools, m: multiset<Block>, table: Table, to: Device, mapping: map<nat, Block>,
                             q: Pools, mapping': map<nat, Block>, moved: Table) {
    && Accounted(q, m + multiset(moved)) && q.refs.Keys == p.refs.Keys
    && InjectiveTo(mapping', to) && Extends(mapping, mapping', m)
    && mapping'.Keys == mapping.Keys + TableIds(table)
    && (forall k :: k in mapping' ==> mapping'[k] in m + multiset(moved))
    && Renamed(table, mapping', moved)
    && |q.FreeList(to)| >= |p.FreeList(to)| - |table|
  }

  lemma TableMovedCons(p: Pools, m: multiset<Block>, table: Table, to: Device, mapping: map<nat, Block>,
                       q: Pools, mapping1: map<nat, Block>, c: Block, r: Pools, mapping': map<nat, Block>, moved: Table)
    requires table != []
    requires TableMoved(q, m + multiset{c}, table[1..], to, mapping1, r, mapping', moved)
    requires q.refs.Keys == p.refs.Keys && Extends(mapping, mapping1, m)
    requires mapping1.Keys == mapping.Keys + {table[0].id} && mapping1[table[0].id] == c
    requires |q.FreeList(to)| >= |p.FreeList(to)| - 1
    ensures TableMoved(p, m, table, to, mapping, r, mapping', [c] + moved)
  {
    hide Accounted, InjectiveTo, Renamed, Extends, TableIds;
    ExtendsTrans(mapping, mapping1, mapping', m, m, m + multiset{c});
    RenamedCons(table, mapping', c, moved, m);
  }

  lemma {:induction false} MoveTableLaw(p: Pools, m: multiset<Block>, table: Table, to: Device, from: Device,
                                        mapping: map<nat, Block>)
    requires to != from
    requires forall b :: b in table ==> b.dev == from
    requires Accounted(p, m + multiset(table))
    requires InjectiveTo(mapping, to)
    requires forall k :: k in mapping ==> mapping[k] in m
    requires |table| <= |p.FreeList(to)|
    ensures MoveTable(p, table, to, from, mapping).Done?
    ensures var (q, mapping', moved) := MoveTable(p, table, to, from, mapping).value;
            TableMoved(p, m, table, to, mapping, q, mapping', moved)
    decreases |table|
  {
    hide Accounted, MapBlock, Release, InjectiveTo, TableMoved, Extends;
    if table == [] {
      assert TableMoved(p, m, [], to, mapping, p, mapping, []) by {
        assert m + multiset(table) == m;
        MoveNothing(p, m, to, mapping);
      }
    } else {
      var q, mapping1, c := MoveOneLaw(p, m, table, to, from, mapping);
      MoveTableLaw(q, m + multiset{c}, table[1..], to, from, mapping1);
      var (r, mapping', moved) := MoveTable(q, table[1..], to, from, mapping1).value;
      TableMovedCons(p, m, table, to, mapping, q, mapping1, c, r, mapping', moved);
    }
  }

  lemma MoveNothing(p: Pools, m: multiset<Block>, to: Device, mapping: map<nat, Block>)
    requires Accounted(p, m) && InjectiveTo(mapping, to) && (forall k :: k in mapping ==> mapping[k] in m)
    ensures TableMoved(p, m, [], to, mapping, p, mapping, [])
  {
    assert m + multiset([]) == m;
  }

  lemma MoveOneLaw(p: Pools, m: multiset<Block>, table: Table, to: Device, from: Device, mapping: map<nat, Block>)
    returns (q: Pools, mapping1: map<nat, Block>, c: Block)
    requires to != from && table != [] && table[0].dev == from
    requires Accounted(p, m + multiset(table)) && InjectiveTo(mapping, to)
    requires forall k :: k in mapping ==> mapping[k] in m
    requires |p.FreeList(to)| > 0
    ensures MapBlock(p, to, mapping, table[0]).Done?
    ensures MapBlock(p, to, mapping, table[0]).value.1 == mapping1 && MapBlock(p, to, mapping, table[0]).value.2 == c
    ensures Release(MapBlock(p, to, mapping, table[0]).value.0, from, table[0]) == Done(q)
    ensures Accounted(q, m + multiset{c} + multiset(table[1..])) && q.refs.Keys == p.refs.Keys
    ensures InjectiveTo(mapping1, to) && Extends(mapping, mapping1, m)
    ensures mapping1.Keys == mapping.Keys + {table[0].id} && mapping1[table[0].id] == c
    ensures forall k :: k in mapping1 ==> mapping1[k] in m + multiset{c}
    ensures |q.FreeList(to)| >= |p.FreeList(to)| - 1
  {
    hide Accounted, MapBlock, Release, InjectiveTo;
    var all := m + multiset(table);
    assert table == [table[0]] + table[1..];
    MapBlockLaw(p, all, to, mapping, table[0]);
    var p1 := MapBlock(p, to, mapping, table[0]).value.0;
    mapping1, c := MapBlock(p, to, mapping, table[0]).value.1, MapBlock(p, to, mapping, table[0]).value.2;
    ReleaseAccounted(p1, all + multiset{c}, table[0]);
    q := Release(p1, from, table[0]).value;
    assert all + multiset{c} - multiset{table[0]} == m + multiset{c} + multiset(table[1..]);
  }

  /** The state of a group move: tables of `ids` renamed by `mapping`, all other tables as they were. */
  ghost predicate Moved(tables: Tables, ids: seq<SeqId>, mapping: map<nat, Block>, tables': Tables) {
    && tables'.Keys == tables.Keys
    && (forall s :: s in tables && s !in ids ==> tables'[s] == tables[s])
    && (forall s :: s in ids && s in tables ==> Renamed(tables[s], mapping, tables'[s]))
  }

  /** The ids of the blocks in the tables of `ids`. */
  ghost function GroupBlockIds(tables: Tables, ids: seq<SeqId>): set<nat> {
    set s, b | s in ids && s in tables && b in tables[s] :: b.id
  }

  lemma {:induction false} TotalLengthUpdate(tables: Tables, ids: seq<SeqId>, s: SeqId, table: Table)
    requires s !in ids
    ensures TotalLength(tables[s := table], ids) == TotalLength(tables, ids)
    decreases |ids|
  {
    if ids != [] {
      TotalLengthUpdate(tables, ids[1..], s, table);
    }
  }

  lemma {:induction false} MoveGroupLaw(e: Engine, ids: seq<SeqId>, to: Device, from: Device, mapping: map<nat, Block>)
    requires to != from && Consistent(e) && NoDup(ids)
    requires forall s :: s in ids ==> s in e.tables
    requires forall s, b :: s in ids && b in e.tables[s] ==> b.dev == from
    requires InjectiveTo(mapping, to) && (forall k :: k in mapping ==> mapping[k] in References(e.tables))
    requires TotalLength(e.tables, ids) <= |e.pools.FreeList(to)|
    ensures MoveGroup(e, ids, to, from, mapping).Done?
    ensures var (e', mapping') := MoveGroup(e, ids, to, from, mapping).value;
            && Consistent(e') && e'.pools.refs.Keys == e.pools.refs.Keys
            && InjectiveTo(mapping', to) && Extends(mapping, mapping', References(e.tables))
            && mapping'.Keys == mapping.Keys + GroupBlockIds(e.tables, ids)
            && (forall k :: k in mapping' ==> mapping'[k] in References(e'.tables))
            && Moved(e.tables, ids, mapping', e'.tables)
    decreases |ids|
  {
    hide Accounted, MoveTable, InjectiveTo, Renamed, Extends, TableIds, NoDup, References, Moved, GroupBlockIds;
    if ids == [] {
      MovedNothing(e.tables, mapping);
    } else {
      var s, rest := ids[0], ids[1..];
      var table := e.tables[s];
      var m := References(e.tables - {s});
      NoDupTail(ids);
      ReferencesSplit(e.tables, s);
      assert References(e.tables) == m + multiset(table);
      MappedElsewhere(mapping, to, from, m, table);
      MoveTableLaw(e.pools, m, table, to, from, mapping);
      var (p, mapping1, table') := MoveTable(e.pools, table, to, from, mapping).value;
      assert TableMoved(e.pools, m, table, to, mapping, p, mapping1, table');
      var e1 := Engine(p, e.tables[s := table']);
      ReferencesUpdate(e.tables, s, table');
      TotalLengthUpdate(e.tables, rest, s, table');
      MoveGroupLaw(e1, rest, to, from, mapping1);
      var (e', mapping') := MoveGroup(e1, rest, to, from, mapping1).value;
      assert MoveGroup(e, ids, to, from, mapping) == Done((e', mapping'));
      ExtendsTrans(mapping, mapping1, mapping', m, m, References(e1.tables));
      ExtendsOtherDevice(mapping, mapping', to, from, m, table);
      MovedCons(e.tables, ids, mapping1, table', mapping', e'.tables);
    }
  }

  lemma MappedElsewhere(mapping: map<nat, Block>, to: Device, from: Device, m: multiset<Block>, table: Table)
    requires to != from && InjectiveTo(mapping, to) && (forall b :: b in table ==> b.dev == from)
    requires forall k :: k in mapping ==> mapping[k] in m + multiset(table)
    ensures forall k :: k in mapping ==> mapping[k] in m
  {
  }

  lemma ExtendsOtherDevice(mapping: map<nat, Block>, mapping': map<nat, Block>, to: Device, from: Device,
                           m: multiset<Block>, table: Table)
    requires to != from && InjectiveTo(mapping', to) && (forall b :: b in table ==> b.dev == from)
    requires Extends(mapping, mapping', m)
    ensures Extends(mapping, mapping', m + multiset(table))
  {
  }

  lemma MovedNothing(tables: Tables, mapping: map<nat, Block>)
    ensures Moved(tables, [], mapping, tables) && GroupBlockIds(tables, []) == {}
    ensures Extends(mapping, mapping, References(tables))
  {
  }

  lemma RenamedLater(table: Table, mapping: map<nat, Block>, moved: Table, mapping': map<nat, Block>)
    requires Renamed(table, mapping, moved)
    requires forall k :: k in mapping ==> k in mapping' && mapping'[k] == mapping[k]
    ensures Renamed(table, mapping', moved)
  {
  }

  lemma MovedCons(tables: Tables, ids: seq<SeqId>, mapping1: map<nat, Block>, table': Table,
                  mapping': map<nat, Block>, tables': Tables)
    requires ids != [] && ids[0] in tables && ids[0] !in ids[1..]
    requires forall s :: s in ids <==> s == ids[0] || s in ids[1..]
    requires Renamed(tables[ids[0]], mapping1, table')
    requires forall k :: k in mapping1 ==> k in mapping' && mapping'[k] == mapping1[k]
    requires Moved(tables[ids[0] := table'], ids[1..], mapping', tables')
    ensures Moved(tables, ids, mapping', tables')
    ensures GroupBlockIds(tables, ids) == TableIds(tables[ids[0]]) + GroupBlockIds(tables[ids[0] := table'], ids[1..])
  {
    hide Renamed;
    RenamedLater(tables[ids[0]], mapping1, table', mapping');
    assert tables[ids[0] := table'].Keys == tables.Keys;
    forall s | s in ids && s in tables ensures Renamed(tables[s], mapping', tables'[s]) {
      if s == ids[0] {
        assert tables'[s] == table';
      } else {
        assert tables[ids[0] := table'][s] == tables[s];
      }
    }
    var rest := GroupBlockIds(tables[ids[0] := table'], ids[1..]);
    forall k ensures k in GroupBlockIds(tables, ids) <==> k in TableIds(tables[ids[0]]) + rest {
      if k in GroupBlockIds(tables, ids) {
        var s, b :| s in ids && s in tables && b in tables[s] && b.id == k;
        if s != ids[0] {
          assert tables[ids[0] := table'][s] == tables[s];
        }
      }
      if k in rest {
        var s, b :| s in ids[1..] && s in tables[ids[0] := table'] && b in tables[ids[0] := table'][s] && b.id == k;
        assert tables[ids[0] := table'][s] == tables[s];
      }
    }
  }

  /**
   `swap_out` under its guard: no panic, accounting kept, the map covers exactly the group's blocks and is
   injective, its CPU blocks were free, and the group's tables are renamed through it.
   */
  lemma SwapOutLaw(e: Engine, ids: seq<SeqId>) returns (mapping: map<nat, Block>)
    requires Consistent(e) && NoDup(ids) && CanSwapOut(e, ids)
    requires forall s :: s in ids ==> s in e.tables
    requires forall s, b :: s in ids && b in e.tables[s] ==> b.dev == Gpu
    ensures SwapOut(e, ids).Done?
    ensures var (e', swap) := SwapOut(e, ids).value;
            && Consistent(e') && e'.pools.refs.Keys == e.pools.refs.Keys
            && swap == BlockIds(mapping) && mapping.Keys == GroupBlockIds(e.tables, ids)
            && InjectiveTo(mapping, Cpu) && Moved(e.tables, ids, mapping, e'.tables)
            && (forall k :: k in mapping ==> mapping[k] !in References(e.tables))
            && (forall k :: k in mapping ==> mapping[k] in References(e'.tables))
  {
    MoveGroupLaw(e, ids, Cpu, Gpu, map[]);
    mapping := MoveGroup(e, ids, Cpu, Gpu, map[]).value.1;
  }

  lemma SwapInLaw(e: Engine, ids: seq<SeqId>) returns (mapping: map<nat, Block>)
    requires Consistent(e) && NoDup(ids) && CanSwapIn(e, ids)
    requires forall s :: s in ids ==> s in e.tables
    requires forall s, b :: s in ids && b in e.tables[s] ==> b.dev == Cpu
    ensures SwapIn(e, ids).Done?
    ensures var (e', swap) := SwapIn(e, ids).value;
            && Consistent(e') && e'.pools.refs.Keys == e.pools.refs.Keys
            && swap == BlockIds(mapping) && mapping.Keys == GroupBlockIds(e.tables, ids)
            && InjectiveTo(mapping, Gpu) && Moved(e.tables, ids, mapping, e'.tables)
            && (forall k :: k in mapping ==> mapping[k] !in References(e.tables))
            && (forall k :: k in mapping ==> mapping[k] in References(e'.tables))
  {
    MoveGroupLaw(e, ids, Gpu, Cpu, map[]);
    mapping := MoveGroup(e, ids, Gpu, Cpu, map[]).value.1;
  }

  /** A move keeps the sharing pattern: two entries agree after it iff they agreed before. */
  lemma MoveKeepsSharing(tables: Tables, ids: seq<SeqId>, mapping: map<nat, Block>, tables': Tables,
                         to: Device, from: Device, s: SeqId, i: nat, t: SeqId, j: nat)
    requires InjectiveTo(mapping, to) && Moved(tables, ids, mapping, tables')
    requires s in ids && t in ids && s in tables && t in tables
    requires i < |tables[s]| && j < |tables[t]|
    requires tables[s][i].dev == from == tables[t][j].dev
    ensures |tables'[s]| == |tables[s]| && |tables'[t]| == |tables[t]|
    ensures tables'[s][i] == tables'[t][j] <==> tables[s][i] == tables[t][j]
  {
  }

  /** Swapping a group out and in again gives back tables with the same sharing, all on the GPU. */
  lemma SwapRoundTrip(e: Engine, ids: seq<SeqId>)
    requires Consistent(e) && NoDup(ids) && CanSwapOut(e, ids)
    requires forall s :: s in ids ==> s in e.tables
    requires forall s, b :: s in ids && b in e.tables[s] ==> b.dev == Gpu
    ensures SwapOut(e, ids).Done?
    ensures var (e1, out) := SwapOut(e, ids).value;
            CanSwapIn(e1, ids) ==>
              && SwapIn(e1, ids).Done?
              && var (e2, inn) := SwapIn(e1, ids).value;
              && Consistent(e2)
              && (forall s :: s in ids ==> s in e2.tables && |e2.tables[s]| == |e.tables[s]|)
              && (forall s, i :: s in ids && 0 <= i < |e.tables[s]| ==>
                    && e.tables[s][i].id in out && out[e.tables[s][i].id] in inn
                    && e2.tables[s][i] == Block(Gpu, inn[out[e.tables[s][i].id]]))
              && (forall s, i, t, j :: s in ids && t in ids && 0 <= i < |e.tables[s]| && 0 <= j < |e.tables[t]| ==>
                    (e2.tables[s][i] == e2.tables[t][j] <==> e.tables[s][i] == e.tables[t][j]))
  {
    hide Consistent, NoDup, SwapOut, SwapIn, CanSwapIn, CanSwapOut, GroupBlockIds, InjectiveTo, References;
    var mapping := SwapOutLaw(e, ids);
    var (e1, out) := SwapOut(e, ids).value;
    if CanSwapIn(e1, ids) {
      MovedDevice(e.tables, ids, mapping, e1.tables, Cpu);
      var mapping2 := SwapInLaw(e1, ids);
      var (e2, inn) := SwapIn(e1, ids).value;
      forall s, i | s in ids && 0 <= i < |e.tables[s]|
        ensures e.tables[s][i].id in out && out[e.tables[s][i].id] in inn
        ensures i < |e2.tables[s]| && e2.tables[s][i] == Block(Gpu, inn[out[e.tables[s][i].id]])
      {
        MovedTwice(e.tables, ids, mapping, e1.tables, mapping2, e2.tables, s, i);
      }
      forall s, i, t, j | s in ids && t in ids && 0 <= i < |e.tables[s]| && 0 <= j < |e.tables[t]|
        ensures e2.tables[s][i] == e2.tables[t][j] <==> e.tables[s][i] == e.tables[t][j]
      {
        MovedDevice(e1.tables, ids, mapping2, e2.tables, Gpu);
        MoveKeepsSharing(e.tables, ids, mapping, e1.tables, Cpu, Gpu, s, i, t, j);
        MoveKeepsSharing(e1.tables, ids, mapping2, e2.tables, Gpu, Cpu, s, i, t, j);
      }
    }
  }

  lemma MovedDevice(tables: Tables, ids: seq<SeqId>, mapping: map<nat, Block>, tables': Tables, d: Device)
    requires Moved(tables, ids, mapping, tables') && InjectiveTo(mapping, d)
    requires forall s :: s in ids ==> s in tables
    ensures forall s, b :: s in ids && b in tables'[s] ==> b.dev == d
    ensures forall s :: s in ids ==> |tables'[s]| == |tables[s]|
  {
    forall s, b | s in ids && b in tables'[s] ensures b.dev == d {
      var i :| 0 <= i < |tables'[s]| && tables'[s][i] == b;
      assert Renamed(tables[s], mapping, tables'[s]);
      assert b == mapping[tables[s][i].id];
    }
  }

  lemma MovedTwice(tables: Tables, ids: seq<SeqId>, out: map<nat, Block>, tables1: Tables, inn: map<nat, Block>,
                   tables2: Tables, s: SeqId, i: nat)
    requires Moved(tables, ids, out, tables1) && Moved(tables1, ids, inn, tables2) && InjectiveTo(inn, Gpu)
    requires s in ids && s in tables && i < |tables[s]|
    ensures |tables2[s]| == |tables[s]|
    ensures tables[s][i].id in out && out[tables[s][i].id].id in inn
    ensures tables2[s][i] == Block(Gpu, inn[out[tables[s][i].id].id].id)
  {
    assert Renamed(tables[s], out, tables1[s]);
    assert Renamed(tables1[s], inn, tables2[s]);
    assert tables1[s][i] == out[tables[s][i].id];
  }
}
