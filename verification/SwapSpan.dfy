/**
 A group that is swapped out in one step and swapped in by a later one, with any moves of the engine between: steps,
 tokens written to the GPU cache, finishes and clean-ups. It reads through its new tables what it read before it was
 swapped out.
 */
module SwapSpan {
  import opened Pools
  import opened Engine
  import opened MemoryOps
  import opened StepInvariant
  import opened Scheduler
  import opened ScheduleSafety
  import opened ScheduleTheorem
  import opened Runs
  import opened Interleavings

  type Memory<!D> = Block -> D

  /** The operations of a step executed in order. */
  ghost predicate Executed<D(!new)>(ops: Ops, m: Memory<D>, m': Memory<D>) {
    exists m1: Memory<D>, m2: Memory<D> ::
      SwappedIn(ops.swapIn, m, m1) && SwappedOut(ops.swapOut, m1, m2) && Copied(ops.copies, m2, m')
  }

  /** What a move does to the caches: a step executes its operations, and between steps only GPU blocks are written. */
  ghost predicate MemoryMove<D(!new)>(c: Config, s: State, move: Move, m: Memory<D>, m': Memory<D>) {
    if move.Step? then Schedule(c, s).Done? && Executed(Schedule(c, s).value.1.ops, m, m')
    else forall b: Block :: b.dev.Cpu? ==> m'(b) == m(b)
  }

  ghost predicate SwappedOutIn(own: Owner, s: State, i: SeqId) {
    i in own && own[i] in Ids(s.swappedOut)
  }

  /** A run with its memories, during which the group of `i` stays swapped out. */
  ghost predicate Span<D(!new)>(c: Config, own: Owner, s: State, moves: seq<Move>, ms: seq<Memory<D>>, i: SeqId)
    decreases |moves|
  {
    && |ms| == |moves| + 1 && SwappedOutIn(own, s, i)
    && (moves != [] ==>
          && Make(c, s, moves[0]).Done? && MemoryMove(c, s, moves[0], ms[0], ms[1])
          && Span(c, own, Make(c, s, moves[0]).value, moves[1..], ms[1..], i))
  }

  /** Every position of the old table reads the same in the new one. */
  ghost predicate ReadsSame<D(!new)>(tables: Tables, m: Memory<D>, tables': Tables, m': Memory<D>, i: SeqId) {
    && i in tables && i in tables' && |tables[i]| <= |tables'[i]|
    && (forall j :: 0 <= j < |tables[i]| ==> m'(tables'[i][j]) == m(tables[i][j]))
  }

  lemma StepReadsSame<D(!new)>(c: Config, own: Owner, s: State, m: Memory<D>, m': Memory<D>, i: SeqId)
    requires SchedulerOk(own, s) && PoolBounded(c, s.engine) && Schedule(c, s).Done?
    requires Executed(Schedule(c, s).value.1.ops, m, m')
    requires i in s.engine.tables && i in Schedule(c, s).value.0.engine.tables
    ensures ReadsSame(s.engine.tables, m, Schedule(c, s).value.0.engine.tables, m', i)
  {
    hide SchedulerOk, Schedule, PoolBounded, SwappedIn, SwappedOut, Copied;
    var ops, after := Schedule(c, s).value.1.ops, Schedule(c, s).value.0.engine.tables;
    var m1: Memory<D>, m2: Memory<D> :|
      SwappedIn(ops.swapIn, m, m1) && SwappedOut(ops.swapOut, m1, m2) && Copied(ops.copies, m2, m');
    StepPreservesContents(c, own, s, m, m1, m2, m');
    var plan := ScheduleSafe(c, own, s);
    assert Keeps(s.engine.tables, after, plan);
  }

  lemma HasTable(own: Owner, s: State, i: SeqId)
    requires SchedulerOk(own, s) && i in own && own[i] in Ids(s.swappedOut) + Ids(s.running)
    ensures i in s.engine.tables
    ensures own[i] in Ids(s.swappedOut) ==> forall b :: b in s.engine.tables[i] ==> b.dev.Cpu?
    ensures own[i] in Ids(s.running) ==> forall b :: b in s.engine.tables[i] ==> b.dev.Gpu?
  {
    hide Consistent, NoSharing, QueueOk;
  }

  lemma MoveReadsSame<D(!new)>(c: Config, own: Owner, s: State, move: Move, m: Memory<D>, m': Memory<D>, i: SeqId)
    requires SchedulerOk(own, s) && PoolBounded(c, s.engine) && Make(c, s, move).Done? && MemoryMove(c, s, move, m, m')
    requires SwappedOutIn(own, s, i) && SwappedOutIn(own, Make(c, s, move).value, i)
    ensures ReadsSame(s.engine.tables, m, Make(c, s, move).value.engine.tables, m', i)
  {
    hide SchedulerOk, Schedule, PoolBounded, FreeFinished, Executed;
    MoveSafe(c, own, s, move);
    var s' := Make(c, s, move).value;
    HasTable(own, s, i);
    HasTable(own, s', i);
    if move.Step? {
      StepReadsSame(c, own, s, m, m', i);
    } else {
      if move.Clean? {
        CleanUpSafe(own, s);
      }
      assert s'.engine.tables[i] == s.engine.tables[i];
    }
  }

  lemma ReadsSameTrans<D(!new)>(a: Tables, ma: Memory<D>, b: Tables, mb: Memory<D>, c: Tables, mc: Memory<D>, i: SeqId)
    requires ReadsSame(a, ma, b, mb, i) && ReadsSame(b, mb, c, mc, i)
    ensures ReadsSame(a, ma, c, mc, i)
  {
  }

  /** While a group is swapped out its contents stay. */
  lemma {:induction false} SpanReadsSame<D(!new)>(c: Config, own: Owner, s: State, moves: seq<Move>,
                                                  ms: seq<Memory<D>>, i: SeqId)
    requires SchedulerOk(own, s) && PoolBounded(c, s.engine) && Span(c, own, s, moves, ms, i)
    ensures MakeAll(c, s, moves).Done?
    ensures var s' := MakeAll(c, s, moves).value;
            && SchedulerOk(own, s') && PoolBounded(c, s'.engine) && SwappedOutIn(own, s', i)
            && ReadsSame(s.engine.tables, ms[0], s'.engine.tables, ms[|moves|], i)
    decreases |moves|
  {
    hide SchedulerOk, Make, PoolBounded, MemoryMove, SwappedOutIn, ReadsSame;
    if moves == [] {
      assert ReadsSame(s.engine.tables, ms[0], s.engine.tables, ms[0], i) by {
        SwappedHasTable(own, s, i);
        Unmoved(s.engine.tables, ms[0], i);
      }
    } else {
      var s1 := Make(c, s, moves[0]).value;
      MoveSafe(c, own, s, moves[0]);
      StillSwapped(c, own, s1, moves[1..], ms[1..], i);
      MoveReadsSame(c, own, s, moves[0], ms[0], ms[1], i);
      SpanReadsSame(c, own, s1, moves[1..], ms[1..], i);
      ReadsSameTrans(s.engine.tables, ms[0], s1.engine.tables, ms[1],
                     MakeAll(c, s, moves).value.engine.tables, ms[|moves|], i);
    }
  }

  lemma StillSwapped<D(!new)>(c: Config, own: Owner, s: State, moves: seq<Move>, ms: seq<Memory<D>>, i: SeqId)
    requires Span(c, own, s, moves, ms, i)
    ensures SwappedOutIn(own, s, i) && |ms| == |moves| + 1
  {
  }

  lemma SwappedHasTable(own: Owner, s: State, i: SeqId)
    requires SchedulerOk(own, s) && SwappedOutIn(own, s, i)
    ensures i in s.engine.tables
  {
    HasTable(own, s, i);
  }

  lemma Unmoved<D(!new)>(tables: Tables, m: Memory<D>, i: SeqId)
    requires i in tables
    ensures ReadsSame(tables, m, tables, m, i)
  {
  }

  /**
   From the state before the step that swaps the group out to the state after the step that swaps it in: all tables are
   on the GPU again, and every position reads what it read.
   */
  lemma SwapOutAndInAgain<D(!new)>(c: Config, own: Owner, s: State, moves: seq<Move>, ms: seq<Memory<D>>, i: SeqId,
                                   before: Memory<D>, after: Memory<D>)
    requires SchedulerOk(own, s) && PoolBounded(c, s.engine) && i in own && own[i] in Ids(s.running)
    requires Make(c, s, Step).Done? && |ms| > 0 && MemoryMove(c, s, Step, before, ms[0])
    requires Span(c, own, Make(c, s, Step).value, moves, ms, i)
    requires MakeAll(c, Make(c, s, Step).value, moves).Done?
    requires var s2 := MakeAll(c, Make(c, s, Step).value, moves).value;
             && Make(c, s2, Step).Done? && MemoryMove(c, s2, Step, ms[|moves|], after)
             && own[i] in Ids(Make(c, s2, Step).value.running)
    ensures var s3 := Make(c, MakeAll(c, Make(c, s, Step).value, moves).value, Step).value;
            && ReadsSame(s.engine.tables, before, s3.engine.tables, after, i)
            && (forall b :: b in s3.engine.tables[i] ==> b.dev.Gpu?)
  {
    hide SchedulerOk, Make, MemoryMove, PoolBounded, Span, SwappedOutIn, ReadsSame, MakeAll, Ids;
    var s1 := Make(c, s, Step).value;
    StillSwapped(c, own, s1, moves, ms, i);
    OneStep(c, own, s, before, ms[0], i);
    SpanReadsSame(c, own, s1, moves, ms, i);
    var s2 := MakeAll(c, s1, moves).value;
    OneStep(c, own, s2, ms[|moves|], after, i);
    var s3 := Make(c, s2, Step).value;
    HasTable(own, s3, i);
    ReadsSameTrans(s.engine.tables, before, s1.engine.tables, ms[0], s2.engine.tables, ms[|moves|], i);
    ReadsSameTrans(s.engine.tables, before, s2.engine.tables, ms[|moves|], s3.engine.tables, after, i);
  }

  /** A step during which the sequence keeps its place or moves between the running and the swapped-out groups. */
  lemma OneStep<D(!new)>(c: Config, own: Owner, s: State, m: Memory<D>, m': Memory<D>, i: SeqId)
    requires SchedulerOk(own, s) && PoolBounded(c, s.engine) && Make(c, s, Step).Done? && MemoryMove(c, s, Step, m, m')
    requires SwappedOutIn(own, s, i) || (i in own && own[i] in Ids(s.running))
    requires var s' := Make(c, s, Step).value; SwappedOutIn(own, s', i) || (i in own && own[i] in Ids(s'.running))
    ensures var s' := Make(c, s, Step).value;
            && SchedulerOk(own, s') && PoolBounded(c, s'.engine)
            && ReadsSame(s.engine.tables, m, s'.engine.tables, m', i)
  {
    hide SchedulerOk, Schedule, PoolBounded, Executed, Ids, ReadsSame;
    MoveSafe(c, own, s, Step);
    HasTable(own, s, i);
    HasTable(own, Make(c, s, Step).value, i);
    StepReadsSame(c, own, s, m, m', i);
  }
}
