/**
 `BlockEngine` of src/scheduler/block_engine.rs as functions on a value: block tables over the
 two pools. Each function follows the source loop for loop; a panic is an outcome.
 */
module Engine {
  import opened Outcomes
  import opened Pools

  type SeqId = nat
  type Table = seq<Block>
  type Tables = map<SeqId, Table>

  datatype Engine = Engine(pools: Pools, tables: Tables)

  /** All references held by the block tables, with multiplicity. */
  ghost function References(tables: Tables): multiset<Block> {
    if tables == map[] then
      multiset{}
    else
      var s :| s in tables;
      multiset(tables[s]) + References(tables - {s})
  }

  /** Each block is free exactly once with count zero, or its count is its number of table entries. */
  ghost predicate Consistent(e: Engine) {
    Accounted(e.pools, References(e.tables))
  }

  // ----- The operations

  function AllocTable(p: Pools, n: nat, table: Table): Outcome<(Pools, Table)>
    decreases n
  {
    if n == 0 then
      Done((p, table))
    else
      var (q, b) :- Alloc(p, Gpu);
      AllocTable(q, n - 1, table + [b])
  }

  /** Gives every listed sequence the same table. */
  function InsertAll(tables: Tables, ids: seq<SeqId>, table: Table): Tables
    decreases |ids|
  {
    if ids == [] then tables else InsertAll(tables[ids[0] := table], ids[1..], table)
  }

  /** `allocate`: one table of `n` new blocks, shared by all sequences of the group. */
  function Allocate(e: Engine, ids: seq<SeqId>, n: nat): Outcome<Engine> {
    var (p, table) :- AllocTable(e.pools, n, []);
    Done(Engine(p, InsertAll(e.tables, ids, table)))
  }

  function ReleaseAll(p: Pools, table: Table): Outcome<Pools>
    decreases |table|
  {
    if table == [] then
      Done(p)
    else
      var q :- Release(p, table[0].dev, table[0]);
      ReleaseAll(q, table[1..])
  }

  /** `free_sequence`. */
  function FreeSequence(e: Engine, s: SeqId): Outcome<Engine> {
    if s !in e.tables then
      Panic
    else
      var p :- ReleaseAll(e.pools, e.tables[s]);
      Done(Engine(p, e.tables - {s}))
  }

  /** `Scheduler::_free`. */
  function FreeGroup(e: Engine, ids: seq<SeqId>): Outcome<Engine>
    decreases |ids|
  {
    if ids == [] then
      Done(e)
    else
      var e' :- FreeSequence(e, ids[0]);
      FreeGroup(e', ids[1..])
  }

  /** The block that replaces `b`: a new one from pool `to`, or the one already chosen for `b`'s id. */
  function MapBlock(p: Pools, to: Device, mapping: map<nat, Block>,
                    b: Block): Outcome<(Pools, map<nat, Block>, Block)> {
    if b.id !in mapping then
      var (q, c) :- Alloc(p, to);
      Done((q, mapping[b.id := c], c))
    else
      var q :- Retain(p, mapping[b.id]);
      Done((q, mapping, mapping[b.id]))
  }

  function MoveTable(p: Pools, table: Table, to: Device, from: Device, mapping: map<nat, Block>):
      Outcome<(Pools, map<nat, Block>, Table)>
    decreases |table|
  {
    if table == [] then
      Done((p, mapping, []))
    else
      var (q, mapping1, c) :- MapBlock(p, to, mapping, table[0]);
      var q' :- Release(q, from, table[0]);
      var (r, mapping', moved) :- MoveTable(q', table[1..], to, from, mapping1);
      Done((r, mapping', [c] + moved))
  }

  /** Moves the tables of a group to new blocks of pool `to`, returning the old blocks to pool `from`. */
  function MoveGroup(e: Engine, ids: seq<SeqId>, to: Device, from: Device, mapping: map<nat, Block>):
      Outcome<(Engine, map<nat, Block>)>
    decreases |ids|
  {
    if ids == [] then
      Done((e, mapping))
    else if ids[0] !in e.tables then
      Panic
    else
      var (p, mapping', table) :- MoveTable(e.pools, e.tables[ids[0]], to, from, mapping);
      MoveGroup(Engine(p, e.tables[ids[0] := table]), ids[1..], to, from, mapping')
  }

  function BlockIds(mapping: map<nat, Block>): map<nat, nat> {
    map k | k in mapping :: mapping[k].id
  }

  /** `swap_out`: from GPU block id to CPU block id. */
  function SwapOut(e: Engine, ids: seq<SeqId>): Outcome<(Engine, map<nat, nat>)> {
    var (e', mapping) :- MoveGroup(e, ids, Cpu, Gpu, map[]);
    Done((e', BlockIds(mapping)))
  }

  /** `swap_in` as its comment says: new blocks come from the GPU pool, old ones return to the CPU pool. */
  function SwapIn(e: Engine, ids: seq<SeqId>): Outcome<(Engine, map<nat, nat>)> {
    var (e', mapping) :- MoveGroup(e, ids, Gpu, Cpu, map[]);
    Done((e', BlockIds(mapping)))
  }

  /** `swap_in` as its body is written: the two allocators the other way round. */
  function SwapInAsWritten(e: Engine, ids: seq<SeqId>): Outcome<(Engine, map<nat, nat>)> {
    var (e', mapping) :- MoveGroup(e, ids, Cpu, Gpu, map[]);
    Done((e', BlockIds(mapping)))
  }

  /** Sum of the table lengths of a group, as both `can_swap_*` guards compute it. */
  function TotalLength(tables: Tables, ids: seq<SeqId>): nat {
    if ids == [] then 0
    else (if ids[0] in tables then |tables[ids[0]]| else 0) + TotalLength(tables, ids[1..])
  }

  predicate CanSwapOut(e: Engine, ids: seq<SeqId>) {
    TotalLength(e.tables, ids) <= |e.pools.cpuFree|
  }

  predicate CanSwapIn(e: Engine, ids: seq<SeqId>) {
    TotalLength(e.tables, ids) <= |e.pools.gpuFree|
  }

  /**
   `append_token_slot_to_seq`: `needsBlock` is `blocks_to_add_new_tok() == 1`. The second component is
   the copy-on-write pair (source id, destination id), if any.
   */
  function AppendSlot(e: Engine, s: SeqId, needsBlock: bool): Outcome<(Engine, Option<(nat, nat)>)> {
    if s !in e.tables then
      Panic
    else if needsBlock then
      var (p, b) :- Alloc(e.pools, Gpu);
      Done((Engine(p, e.tables[s := e.tables[s] + [b]]), None))
    else
      var table := e.tables[s];
      if table == [] || table[|table| - 1].dev.Cpu? || table[|table| - 1] !in e.pools.refs then
        Panic
      else
        var last := table[|table| - 1];
        if e.pools.refs[last] == 1 then
          Done((e, None))
        else
          var (p, b) :- Alloc(e.pools, Gpu);
          var q :- Release(p, Gpu, last);
          Done((Engine(q, e.tables[s := table[|table| - 1 := b]]), Some((last.id, b.id))))
  }

  /** Records a copy under its source, as `_append_token_slot_to_seq_group` does. */
  function AddCopy(copies: map<nat, seq<nat>>, src: nat, dst: nat): map<nat, seq<nat>> {
    copies[src := (if src in copies then copies[src] else []) + [dst]]
  }

  /** `Scheduler::_append_token_slot_to_seq_group`; `full` are the sequences whose last logical block is full. */
  function AppendGroup(e: Engine, ids: seq<SeqId>, full: set<SeqId>, copies: map<nat, seq<nat>>):
      Outcome<(Engine, map<nat, seq<nat>>)>
    decreases |ids|
  {
    if ids == [] then
      Done((e, copies))
    else
      var (e', op) :- AppendSlot(e, ids[0], ids[0] in full);
      AppendGroup(e', ids[1..], full, if op.Some? then AddCopy(copies, op.value.0, op.value.1) else copies)
  }

  // ----- References

  lemma {:induction false} ReferencesSplit(tables: Tables, s: SeqId)
    requires s in tables
    ensures References(tables) == multiset(tables[s]) + References(tables - {s})
    decreases |tables|
  {
    var t :| t in tables && References(tables) == multiset(tables[t]) + References(tables - {t});
    if t != s {
      ReferencesSplit(tables - {t}, s);
      ReferencesSplit(tables - {s}, t);
      assert tables - {t} - {s} == tables - {s} - {t};
    }
  }

  /** What replacing one table does to the references. */
  lemma ReferencesUpdate(tables: Tables, s: SeqId, table: Table)
    ensures References(tables[s := table]) == References(tables - {s}) + multiset(table)
    ensures s in tables ==> References(tables) == References(tables - {s}) + multiset(tables[s])
  {
    ReferencesSplit(tables[s := table], s);
    assert tables[s := table] - {s} == tables - {s};
    if s in tables {
      ReferencesSplit(tables, s);
    }
  }

  lemma {:induction false} InReferences(tables: Tables, b: Block)
    ensures b in References(tables) <==> exists s :: s in tables && b in tables[s]
    decreases |tables|
  {
    if tables != map[] {
      var t :| t in tables && References(tables) == multiset(tables[t]) + References(tables - {t});
      InReferences(tables - {t}, b);
      if s :| s in tables && b in tables[s] && s != t {
        assert s in tables - {t} && (tables - {t})[s] == tables[s];
      }
    }
  }

  lemma TableBlockLive(e: Engine, s: SeqId, b: Block)
    requires Consistent(e)
    requires s in e.tables && b in e.tables[s]
    ensures b in References(e.tables) && b in e.pools.refs && e.pools.refs[b] > 0
  {
    ReferencesSplit(e.tables, s);
  }

  /** A block counted once is in no other table, and once in its own. */
  lemma CountedOnceIsExclusive(e: Engine, s: SeqId, i: nat, t: SeqId, j: nat)
    requires Consistent(e)
    requires s in e.tables && t in e.tables && i < |e.tables[s]| && j < |e.tables[t]|
    requires e.tables[s][i] == e.tables[t][j] && (s != t || i != j)
    ensures e.tables[s][i] in e.pools.refs && e.pools.refs[e.tables[s][i]] >= 2
  {
    var b := e.tables[s][i];
    ReferencesSplit(e.tables, s);
    if s != t {
      ReferencesSplit(e.tables - {s}, t);
      assert multiset(e.tables[s])[b] >= 1 && multiset(e.tables[t])[b] >= 1;
    } else {
      OccursTwice(e.tables[s], i, j);
    }
  }

  lemma OccursTwice<T(!new)>(table: seq<T>, i: nat, j: nat)
    requires i < |table| && j < |table| && i != j && table[i] == table[j]
    ensures multiset(table)[table[i]] >= 2
  {
    var lo, hi := if i < j then i else j, if i < j then j else i;
    assert table == table[..hi] + table[hi..];
    assert table[..hi][lo] == table[i] && table[hi..][0] == table[i];
    assert table[i] in multiset(table[..hi]) && table[i] in multiset(table[hi..]);
  }
}
