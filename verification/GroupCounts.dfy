/** References counted within one group: they depend on the tables of its sequences only. */
module GroupCounts {
  import opened Outcomes
  import opened Pools
  import opened Engine
  import opened EngineLaws
  import opened AppendLaws

  /** How often `b` occurs in the tables of the listed sequences. */
  ghost function Occurrences(tables: Tables, ids: seq<SeqId>, b: Block): nat {
    if ids == [] then 0
    else (if ids[0] in tables then multiset(tables[ids[0]])[b] else 0) + Occurrences(tables, ids[1..], b)
  }

  lemma {:induction false} OccurrencesUpdate(tables: Tables, ids: seq<SeqId>, b: Block, s: SeqId, table: Table)
    requires s !in ids
    ensures Occurrences(tables[s := table], ids, b) == Occurrences(tables, ids, b)
    decreases |ids|
  {
    if ids != [] {
      OccurrencesUpdate(tables, ids[1..], b, s, table);
    }
  }

  lemma {:induction false} AllReferencesInGroup(tables: Tables, ids: seq<SeqId>, b: Block)
    requires NoDup(ids) && (forall s :: s in ids ==> s in tables)
    requires forall s :: s in tables && b in tables[s] ==> s in ids
    ensures References(tables)[b] == Occurrences(tables, ids, b)
    decreases |ids|
  {
    if ids == [] {
      InReferences(tables, b);
    } else {
      NoDupTail(ids);
      ReferencesSplit(tables, ids[0]);
      var rest := tables - {ids[0]};
      AllReferencesInGroup(rest, ids[1..], b);
      OccurrencesUpdate(rest, ids[1..], b, ids[0], tables[ids[0]]);
      assert rest[ids[0] := tables[ids[0]]] == tables;
    }
  }

  lemma {:induction false} OccursSomewhere(tables: Tables, ids: seq<SeqId>, s: SeqId, b: Block)
    requires s in ids && s in tables && b in tables[s]
    ensures Occurrences(tables, ids, b) > 0
    decreases |ids|
  {
    if ids[0] != s {
      assert ids == [ids[0]] + ids[1..];
      OccursSomewhere(tables, ids[1..], s, b);
    }
  }

  /** No sequence outside `ids` has a block of one inside. */
  ghost predicate Closed(tables: Tables, ids: seq<SeqId>) {
    && (forall s :: s in ids ==> s in tables)
    && (forall s, t, b :: s in ids && t in tables && b in tables[s] && b in tables[t] ==> t in ids)
  }

  ghost predicate SameOn(tables: Tables, tables': Tables, ids: seq<SeqId>) {
    forall s :: s in ids ==> (s in tables <==> s in tables') && (s in tables ==> tables'[s] == tables[s])
  }

  lemma {:induction false} SameCounts(tables: Tables, tables': Tables, ids: seq<SeqId>, full: set<SeqId>, b: Block)
    requires SameOn(tables, tables', ids)
    ensures Occurrences(tables', ids, b) == Occurrences(tables, ids, b)
    ensures OpenCount(tables', ids, full, b) == OpenCount(tables, ids, full, b)
    decreases |ids|
  {
    if ids != [] {
      assert ids[0] in ids;
      SameCounts(tables, tables', ids[1..], full, b);
    }
  }

  lemma {:induction false} OpenWithin(tables: Tables, ids: seq<SeqId>, full: set<SeqId>, b: Block)
    ensures OpenCount(tables, ids, full, b) <= Occurrences(tables, ids, b)
    decreases |ids|
  {
    if ids != [] {
      OpenWithin(tables, ids[1..], full, b);
    }
  }

  /** An entry that is not the open end of its table is counted in addition to all open ends. */
  lemma {:induction false} SettledEntry(tables: Tables, ids: seq<SeqId>, full: set<SeqId>, i: SeqId, k: nat)
    requires i in ids && i in tables && k < |tables[i]| && (i in full || k < |tables[i]| - 1)
    ensures OpenCount(tables, ids, full, tables[i][k]) < Occurrences(tables, ids, tables[i][k])
    decreases |ids|
  {
    var b := tables[i][k];
    if ids[0] == i {
      OpenWithin(tables, ids[1..], full, b);
      if i !in full && Last(tables[i]) == b {
        OccursTwice(tables[i], k, |tables[i]| - 1);
      }
    } else {
      assert ids == [ids[0]] + ids[1..];
      SettledEntry(tables, ids[1..], full, i, k);
    }
  }

  // ----- Renaming

  lemma {:induction false} RenamedMultiset(table: Table, mapping: map<nat, Block>, table': Table, d: Device,
                                           to: Device, b: Block)
    requires Renamed(table, mapping, table') && InjectiveTo(mapping, to) && b.dev == d && b.id in mapping
    requires forall c :: c in table ==> c.dev == d
    ensures multiset(table')[mapping[b.id]] == multiset(table)[b]
    decreases |table|
  {
    if table == [] {
      assert table' == [];
    } else {
      var rest, rest' := table[1..], table'[1..];
      assert table == [table[0]] + rest && table' == [table'[0]] + rest';
      RenamedMultiset(rest, mapping, rest', d, to, b);
      assert table'[0] == mapping[b.id] <==> table[0] == b by {
        assert table[0] in table;
      }
    }
  }

  /** An injective renaming of a group's tables keeps the counts over any of its sequences. */
  lemma {:induction false} RenamedCounts(tables: Tables, ids: seq<SeqId>, mapping: map<nat, Block>, tables': Tables,
                                         full: set<SeqId>, d: Device, to: Device, b: Block, some: seq<SeqId>)
    requires Moved(tables, ids, mapping, tables') && InjectiveTo(mapping, to) && b.dev == d && b.id in mapping
    requires forall s :: s in ids ==> s in tables
    requires forall s, c :: s in ids && c in tables[s] ==> c.dev == d
    requires forall s :: s in some ==> s in ids
    ensures Occurrences(tables', some, mapping[b.id]) == Occurrences(tables, some, b)
    ensures OpenCount(tables', some, full, mapping[b.id]) == OpenCount(tables, some, full, b)
    decreases |some|
  {
    if some != [] {
      var s := some[0];
      assert s in some;
      assert Renamed(tables[s], mapping, tables'[s]);
      RenamedMultiset(tables[s], mapping, tables'[s], d, to, b);
      RenamedLast(tables[s], mapping, tables'[s], d, to, b);
      RenamedCounts(tables, ids, mapping, tables', full, d, to, b, some[1..]);
    }
  }

  lemma RenamedLast(table: Table, mapping: map<nat, Block>, table': Table, d: Device, to: Device, b: Block)
    requires Renamed(table, mapping, table') && InjectiveTo(mapping, to) && b.dev == d && b.id in mapping
    requires forall c :: c in table ==> c.dev == d
    ensures table' == [] <==> table == []
    ensures table != [] ==> (Last(table') == mapping[b.id] <==> Last(table) == b)
  {
    if table != [] {
      assert Last(table) in table;
    }
  }
}
