/** The cache slots a decode batch writes, and who can see them. */
module Slots {
  import opened Arithmetic
  import opened Pools
  import opened Engine
  import opened AppendLaws
  import opened GroupCounts
  import opened StepInvariant
  import opened Scheduler
  import opened ScheduleSafety
  import ScheduleTheorem
  import MemoryOps
  import opened SingleSequence
  import opened Runs
  import opened Generation
  import opened DecodeWrites

  /** `slot_mapping`: the slot of token position `pos` of a sequence with this table. */
  function Slot(size: nat, table: Table, pos: nat): nat
    requires size > 0 && pos / size < |table|
  {
    table[pos / size].id * size + pos % size
  }

  lemma SlotParts(size: nat, table: Table, pos: nat)
    requires size > 0 && pos / size < |table|
    ensures Slot(size, table, pos) / size == table[pos / size].id
    ensures Slot(size, table, pos) % size == pos % size
  {
    QuotientUnique(Slot(size, table, pos), size, table[pos / size].id, pos % size);
  }

  /** Two positions have the same slot iff they have the same offset in the same physical block. */
  lemma SameSlotIff(size: nat, table: Table, pos: nat, table': Table, pos': nat)
    requires size > 0 && pos / size < |table| && pos' / size < |table'|
    requires table[pos / size].dev == table'[pos' / size].dev
    ensures Slot(size, table, pos) == Slot(size, table', pos') <==>
            table[pos / size] == table'[pos' / size] && pos % size == pos' % size
  {
    SlotParts(size, table, pos);
    SlotParts(size, table', pos');
  }

  lemma {:induction false} TwoOccurrences<T(!new)>(s: seq<T>, k: nat)
    requires k < |s| && multiset(s)[s[k]] >= 2
    ensures exists j :: 0 <= j < |s| && j != k && s[j] == s[k]
  {
    var rest := s[..k] + s[k + 1..];
    assert s == s[..k] + [s[k]] + s[k + 1..];
    assert multiset(s) == multiset(rest) + multiset{s[k]};
    assert s[k] in multiset(rest);
    var j :| 0 <= j < |rest| && rest[j] == s[k];
    assert rest[j] == s[if j < k then j else j + 1];
  }

  /** A block can be written without any other table entry seeing it exactly when its count is one. */
  lemma WriteIsolatedIff(e: Engine, s: SeqId, k: nat)
    requires Consistent(e) && s in e.tables && k < |e.tables[s]|
    ensures e.tables[s][k] in e.pools.refs
    ensures e.pools.refs[e.tables[s][k]] == 1 <==>
            forall t, j :: t in e.tables && 0 <= j < |e.tables[t]| && (t != s || j != k) ==>
              e.tables[t][j] != e.tables[s][k]
  {
    hide FreeListOk;
    var b := e.tables[s][k];
    TableBlockLive(e, s, b);
    CountIs(e, b);
    if e.pools.refs[b] == 1 {
      forall t, j | t in e.tables && 0 <= j < |e.tables[t]| && (t != s || j != k) ensures e.tables[t][j] != b {
        if e.tables[t][j] == b {
          CountedOnceIsExclusive(e, s, k, t, j);
        }
      }
    } else {
      ReferencesSplit(e.tables, s);
      if b in References(e.tables - {s}) {
        InReferences(e.tables - {s}, b);
        var t :| t in e.tables - {s} && b in (e.tables - {s})[t];
        var j :| 0 <= j < |e.tables[t]| && e.tables[t][j] == b;
        assert t != s;
      } else {
        TwoOccurrences(e.tables[s], k);
      }
    }
  }

  /**
   In every decode batch of every run of the generation loop: the slots written for different sequences are distinct
   and in range, and the slot written for one sequence is no slot of any position of another.
   */
  lemma BatchWritesApart(c: Config, numCpuBlocks: nat, steps: seq<Step>, i: SeqId, j: SeqId, pos: nat)
    requires c.blockSize > 0 && Generate(c, numCpuBlocks, steps).Done?
    requires forall step :: step in steps && step.Prompt? ==> step.len > 0
    requires Decode(c, Generate(c, numCpuBlocks, steps).value.state).Done?
    requires var s := Decode(c, Generate(c, numCpuBlocks, steps).value.state).value.0;
             && LookupOk(c, s, i) && i != j && j in s.engine.tables
             && pos / c.blockSize < |s.engine.tables[j]|
    ensures var s := Decode(c, Generate(c, numCpuBlocks, steps).value.state).value.0;
            var slot := Slot(c.blockSize, s.engine.tables[i], Len(s.seqs, i) - 1);
            && slot < c.numGpuBlocks * c.blockSize
            && slot != Slot(c.blockSize, s.engine.tables[j], pos)
  {
    hide Decode, Generate, GenerationOk;
    GenerateOk(c, numCpuBlocks, steps);
    var admitted := History(c, numCpuBlocks, steps);
    var w := Generate(c, numCpuBlocks, steps).value;
    TablesNotEmpty(c, numCpuBlocks, w, admitted);
    DecodeSingle(c, w.own, w.state);
    var s := Decode(c, w.state).value.0;
    DecodeBounded(c, w, s);
    ApartInState(c, w.own, s, i, j, pos);
  }

  lemma DecodeBounded(c: Config, w: World, s: State)
    requires SingleOk(w.own, w.state) && Decode(c, w.state).Done? && s == Decode(c, w.state).value.0
    requires forall b :: b in w.state.engine.pools.refs && b.dev.Gpu? ==> b.id < c.numGpuBlocks
    ensures forall b :: b in s.engine.pools.refs && b.dev.Gpu? ==> b.id < c.numGpuBlocks
  {
    hide Decode, SchedulerOk;
    var plan := ScheduleTheorem.DecodeSafe(c, w.own, w.state);
  }

  lemma ApartInState(c: Config, own: Owner, s: State, i: SeqId, j: SeqId, pos: nat)
    requires SingleOk(own, s) && LookupOk(c, s, i) && i != j && j in s.engine.tables
    requires pos / c.blockSize < |s.engine.tables[j]|
    requires forall b :: b in s.engine.pools.refs && b.dev.Gpu? ==> b.id < c.numGpuBlocks
    ensures var slot := Slot(c.blockSize, s.engine.tables[i], Len(s.seqs, i) - 1);
            slot < c.numGpuBlocks * c.blockSize && slot != Slot(c.blockSize, s.engine.tables[j], pos)
  {
    hide NoSharing, QueuesOk, FreeListOk, References;
    var size := c.blockSize;
    var k := (Len(s.seqs, i) - 1) / size;
    var b, d := s.engine.tables[i][k], s.engine.tables[j][pos / size];
    TableBlockLive(s.engine, i, b);
    TableBlockLive(s.engine, j, d);
    assert Ids(s.swappedOut) == {};
    assert b.dev.Gpu? && d.dev.Gpu?;
    if b == d {
      CountedOnceIsExclusive(s.engine, i, k, j, pos / size);
      CountIs(s.engine, b);
    }
    SameSlotIff(size, s.engine.tables[i], Len(s.seqs, i) - 1, s.engine.tables[j], pos);
    SlotInRange(size, b.id, (Len(s.seqs, i) - 1) % size, c.numGpuBlocks);
  }

  // ----- Groups of any size

  /** The table entry that the decode step writes for sequence `i`: that of its last token. */
  function WrittenEntry(c: Config, s: State, i: SeqId): nat
    requires LookupOk(c, s, i)
  {
    (Len(s.seqs, i) - 1) / c.blockSize
  }

  /** No position in the GPU cache that any table entry but this one leads to is the slot written for `i`. */
  ghost predicate WriteUnseen(c: Config, s: State, i: SeqId)
    requires LookupOk(c, s, i)
  {
    forall j, pos: nat ::
      && j in s.engine.tables && pos / c.blockSize < |s.engine.tables[j]|
      && s.engine.tables[j][pos / c.blockSize].dev.Gpu?
      && (j != i || pos / c.blockSize != WrittenEntry(c, s, i)) ==>
      Slot(c.blockSize, s.engine.tables[j], pos) != Slot(c.blockSize, s.engine.tables[i], Len(s.seqs, i) - 1)
  }

  /** The write is unseen exactly when the block it goes to has count one. */
  lemma UnseenIffCountOne(c: Config, s: State, i: SeqId)
    requires Consistent(s.engine) && LookupOk(c, s, i) && s.engine.tables[i][WrittenEntry(c, s, i)].dev.Gpu?
    ensures s.engine.tables[i][WrittenEntry(c, s, i)] in s.engine.pools.refs
    ensures WriteUnseen(c, s, i) <==> s.engine.pools.refs[s.engine.tables[i][WrittenEntry(c, s, i)]] == 1
  {
    hide Consistent, Slot;
    var size, tables, k := c.blockSize, s.engine.tables, WrittenEntry(c, s, i);
    WriteIsolatedIff(s.engine, i, k);
    if s.engine.pools.refs[tables[i][k]] == 1 {
      forall j, pos: nat | j in tables && pos / size < |tables[j]| && tables[j][pos / size].dev.Gpu?
                           && (j != i || pos / size != k)
        ensures Slot(size, tables[j], pos) != Slot(size, tables[i], Len(s.seqs, i) - 1)
      {
        SameSlotIff(size, tables[i], Len(s.seqs, i) - 1, tables[j], pos);
      }
    } else {
      var t, m :| t in tables && 0 <= m < |tables[t]| && (t != i || m != k) && tables[t][m] == tables[i][k];
      var pos := PositionIn(size, m, Len(s.seqs, i) - 1);
      SeenThere(c, s, i, t, m, pos);
    }
  }

  /** The position with the offset of `last` in entry `m` of a table. */
  lemma PositionIn(size: nat, m: nat, last: nat) returns (pos: nat)
    requires size > 0
    ensures pos / size == m && pos % size == last % size
  {
    assert m * size >= 0;
    pos := m * size + last % size;
    QuotientUnique(pos, size, m, last % size);
  }

  lemma SeenThere(c: Config, s: State, i: SeqId, t: SeqId, m: nat, pos: nat)
    requires LookupOk(c, s, i) && t in s.engine.tables && m < |s.engine.tables[t]|
    requires t != i || m != WrittenEntry(c, s, i)
    requires s.engine.tables[t][m] == s.engine.tables[i][WrittenEntry(c, s, i)] && s.engine.tables[t][m].dev.Gpu?
    requires pos / c.blockSize == m && pos % c.blockSize == (Len(s.seqs, i) - 1) % c.blockSize
    ensures !WriteUnseen(c, s, i)
  {
    SameSlotIff(c.blockSize, s.engine.tables[i], Len(s.seqs, i) - 1, s.engine.tables[t], pos);
  }

  /**
   After any step without admission from any valid state, for every sequence scheduled: the slot its token is written
   to is in range; it is unseen by every other table entry exactly when its block has count one; and that is so exactly
   when, before the step, the entry is the open end of the table, or is yet to be added, or all other references to its
   block are open ends of the group. So sequences whose last logical block is full share their writes if they share the
   block, and no copy is made.
   */
  lemma DecodeWriteIff(c: Config, own: Owner, s: State, g: Group, i: SeqId)
    requires SchedulerOk(own, s) && ScheduleTheorem.PoolBounded(c, s.engine) && Decode(c, s).Done?
    requires g in Decode(c, s).value.0.running && i in g.seqs && LookupOk(c, Decode(c, s).value.0, i)
    ensures var s' := Decode(c, s).value.0;
            var k := WrittenEntry(c, s', i);
            && Slot(c.blockSize, s'.engine.tables[i], Len(s'.seqs, i) - 1) < c.numGpuBlocks * c.blockSize
            && s'.engine.tables[i][k] in s'.engine.pools.refs
            && (WriteUnseen(c, s', i) <==> s'.engine.pools.refs[s'.engine.tables[i][k]] == 1)
            && i in s.engine.tables
            && (WriteUnseen(c, s', i) <==> WillBePrivate(s.engine.tables, g.seqs, FullSeqs(c, s.seqs), i, k))
  {
    hide Decode, SchedulerOk, ScheduleTheorem.StepSafe, FullSeqs, WriteUnseen, WillBePrivate, Slot;
    var plan := ScheduleTheorem.DecodeSafe(c, own, s);
    DecodeFollows(c, own, s);
    var s' := Decode(c, s).value.0;
    var k := WrittenEntry(c, s', i);
    ScheduledBlock(c, own, s, s', Decode(c, s).value.1, plan, g, i, k);
    UnseenIffCountOne(c, s', i);
    assert PrivacyFollows(s.engine.tables, s'.engine.tables, g.seqs, FullSeqs(c, s.seqs));
    WrittenInRange(c, s', i);
  }

  lemma ScheduledBlock(c: Config, own: Owner, s: State, s': State, out: Output, plan: MemoryOps.Plan, g: Group,
                       i: SeqId, k: nat)
    requires ScheduleTheorem.StepSafe(own, s, s', out, plan) && ScheduleTheorem.PoolBounded(c, s.engine)
    requires g in s'.running && i in g.seqs && i in s'.engine.tables && k < |s'.engine.tables[i]|
    ensures var b := s'.engine.tables[i][k];
            && Consistent(s'.engine) && b.dev.Gpu? && b.id < c.numGpuBlocks && b in s'.engine.pools.refs
            && s'.engine.pools.refs[b] == Occurrences(s'.engine.tables, g.seqs, b)
  {
    hide Consistent, MemoryOps.Describes, MemoryOps.CopiesApart, Keeps, References, Occurrences;
    var b := s'.engine.tables[i][k];
    assert GroupOk(own, g) && g.id in Ids(s'.running);
    ClosedGroup(own, s'.engine, Ids(s'.running) + Ids(s'.swappedOut), Ids(s'.swappedOut), g);
    AllReferencesInGroup(s'.engine.tables, g.seqs, b);
    TableBlockLive(s'.engine, i, b);
    CountIs(s'.engine, b);
  }

  lemma WrittenInRange(c: Config, s: State, i: SeqId)
    requires LookupOk(c, s, i) && s.engine.tables[i][WrittenEntry(c, s, i)].id < c.numGpuBlocks
    ensures Slot(c.blockSize, s.engine.tables[i], Len(s.seqs, i) - 1) < c.numGpuBlocks * c.blockSize
  {
    SlotInRange(c.blockSize, s.engine.tables[i][WrittenEntry(c, s, i)].id, (Len(s.seqs, i) - 1) % c.blockSize,
                c.numGpuBlocks);
  }

  lemma SlotInRange(size: nat, id: nat, offset: nat, n: nat)
    requires offset < size && id < n
    ensures id * size + offset < n * size
  {
    assert (n - id) * size >= size by { TimesAtLeast(n - id, size); }
  }
}
