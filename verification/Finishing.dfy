/**
 What the events of a run do: tokens lengthen sequences, a finished group is freed at the next clean-up, and at every
 moment the GPU pool is divided between the free list and the tables.
 */
module Finishing {
  import opened Outcomes
  import opened Pools
  import opened Engine
  import opened StepInvariant
  import opened Scheduler
  import opened ScheduleSafety
  import opened ScheduleTheorem
  import opened QueueOrder
  import opened SingleSequence
  import opened Runs
  import opened Interleavings
  import opened Preemption

  // ----- Lengths

  /** A step that does not panic changes no length, whatever the group sizes. */
  lemma ScheduleLens(c: Config, own: Owner, s: State)
    requires SchedulerOk(own, s) && PoolBounded(c, s.engine) && Schedule(c, s).Done?
    ensures Schedule(c, s).value.0.seqs.Keys == s.seqs.Keys
    ensures forall i :: i in s.seqs ==> Schedule(c, s).value.0.seqs[i].len == s.seqs[i].len
  {
    hide SchedulerOk, PoolBounded, Admit, Decode, LatestFirst, FatesOf;
    if s.swappedOut == [] && Admit(c, s, [], []).value.1 != [] {
      AdmitStarts(c, own, s, [], []);
    } else {
      if s.swappedOut == [] {
        AdmitSafe(c, own, s, [], []);
        NothingAdmitted(c, s);
      }
      var n, k := DecodeFates(c, own, s);
    }
  }

  /** The lengths of the requested prompts; sequence `i` has the `i`th. */
  function RequestLens(events: seq<Event>): seq<nat> {
    if events == [] then []
    else
      var n := |events| - 1;
      RequestLens(events[..n]) + if events[n].AddRequest? then [events[n].len] else []
  }

  /** How many tokens sequence `i` was given after it was requested. */
  function TokensOf(events: seq<Event>, i: SeqId): nat {
    if events == [] then 0
    else
      var n := |events| - 1;
      TokensOf(events[..n], i) + if events[n] == Event.AddToken(i) && i < |RequestLens(events[..n])| then 1 else 0
  }

  /** In every run each sequence is as long as its prompt and its tokens together. */
  lemma {:induction false} RunLens(c: Config, numCpuBlocks: nat, events: seq<Event>)
    requires Run(c, numCpuBlocks, events).Done?
    ensures var w := Run(c, numCpuBlocks, events).value;
            && w.nextSeq == |RequestLens(events)|
            && (forall i: SeqId :: i in w.state.seqs <==> i < w.nextSeq)
            && (forall i :: i in w.state.seqs ==> w.state.seqs[i].len == RequestLens(events)[i] + TokensOf(events, i))
    decreases |events|
  {
    hide Next, WorldOk;
    if events == [] {
      assert Run(c, numCpuBlocks, events) == Done(Start(c, numCpuBlocks));
    } else {
      var n := |events| - 1;
      RunLens(c, numCpuBlocks, events[..n]);
      RunOk(c, numCpuBlocks, events[..n]);
      var w := Run(c, numCpuBlocks, events[..n]).value;
      NextLens(c, numCpuBlocks, w, events[n]);
      NoTokensYet(events[..n], w.nextSeq);
      assert Run(c, numCpuBlocks, events) == Next(c, w, events[n]);
    }
  }

  lemma {:induction false} NoTokensYet(events: seq<Event>, i: SeqId)
    requires i >= |RequestLens(events)|
    ensures TokensOf(events, i) == 0
    decreases |events|
  {
    if events != [] {
      NoTokensYet(events[..|events| - 1], i);
    }
  }

  /** One event: a request adds a sequence, a token event adds one token, and nothing else changes a length. */
  lemma NextLens(c: Config, numCpuBlocks: nat, w: World, event: Event)
    requires WorldOk(c, numCpuBlocks, w) && Next(c, w, event).Done?
    requires forall i: SeqId :: i in w.state.seqs <==> i < w.nextSeq
    ensures var w' := Next(c, w, event).value;
            && w'.nextSeq == w.nextSeq + (if event.AddRequest? then 1 else 0)
            && (forall i: SeqId :: i in w'.state.seqs <==> i < w'.nextSeq)
            && (forall i :: i in w.state.seqs ==>
                  w'.state.seqs[i].len == w.state.seqs[i].len + (if event == Event.AddToken(i) then 1 else 0))
            && (event.AddRequest? ==> w'.state.seqs[w.nextSeq].len == event.len)
  {
    hide WorldOk, Schedule, FreeFinished, PoolBounded;
    match event
    case ScheduleStep =>
      StepLens(c, numCpuBlocks, w);
    case CleanUp =>
      CleanUpKeepsSeqs(w.state);
    case AddRequest(len, arrival) =>
    case AddToken(i) =>
    case Finish(i) =>
  }

  lemma StepLens(c: Config, numCpuBlocks: nat, w: World)
    requires WorldOk(c, numCpuBlocks, w) && Schedule(c, w.state).Done?
    ensures Schedule(c, w.state).value.0.seqs.Keys == w.state.seqs.Keys
    ensures forall i :: i in w.state.seqs ==> Schedule(c, w.state).value.0.seqs[i].len == w.state.seqs[i].len
  {
    hide Schedule, SchedulerOk, Exclusive, AllSingle, NumSeqs, Numbered, PoolBounded;
    BoundedStart(c, numCpuBlocks, w.state.engine);
    ScheduleLens(c, w.own, w.state);
  }

  lemma CleanUpKeepsSeqs(s: State)
    requires FreeFinished(s).Done?
    ensures FreeFinished(s).value.seqs == s.seqs && FreeFinished(s).value.waiting == s.waiting
    ensures FreeFinished(s).value.swappedOut == s.swappedOut
  {
  }

  // ----- The pool

  /** In every state of every run the GPU blocks are those of the free list and those in the tables, each once. */
  lemma PoolDivided(c: Config, numCpuBlocks: nat, w: World)
    requires WorldOk(c, numCpuBlocks, w)
    ensures multiset(w.state.engine.pools.gpuFree) + References(w.state.engine.tables)
            == multiset(Fresh(Gpu, c.numGpuBlocks))
  {
    hide References, QueuesOk, Keyed, NoSharing, NumSeqs, Numbered, AllSingle;
    var e := w.state.engine;
    forall b ensures (multiset(e.pools.gpuFree) + References(e.tables))[b] == multiset(Fresh(Gpu, c.numGpuBlocks))[b] {
      InReferences(e.tables, b);
      assert Ids(w.state.swappedOut) == {};
      OneBlockDivided(c, numCpuBlocks, e, b);
    }
  }

  lemma OneBlockDivided(c: Config, numCpuBlocks: nat, e: Engine, b: Block)
    requires Consistent(e) && Exclusive(e.tables)
    requires e.pools.refs.Keys == NewPools(c.numGpuBlocks, numCpuBlocks).refs.Keys
    requires b in References(e.tables) ==> b.dev == Gpu
    ensures (multiset(e.pools.gpuFree) + References(e.tables))[b] == multiset(Fresh(Gpu, c.numGpuBlocks))[b]
  {
    hide References;
    assert e.pools.FreeList(Gpu) == e.pools.gpuFree;
    NoDupCount(e.pools.gpuFree, b);
    NoDupCount(Fresh(Gpu, c.numGpuBlocks), b);
    assert b in e.pools.refs <==> b in NewPools(c.numGpuBlocks, numCpuBlocks).refs;
    assert b in Fresh(Gpu, c.numGpuBlocks) <==> b in e.pools.refs && b.dev == Gpu;
  }

  // ----- Clean-up

  /** The group has a sequence that has not finished. */
  ghost predicate Going(seqs: map<SeqId, Sequence>, g: Group) {
    exists k :: 0 <= k < |g.seqs| && !(g.seqs[k] in seqs && Ended(seqs[g.seqs[k]].status))
  }

  predicate Ended(status: Status) {
    status == FinishedIgnored || status == FinishedAborted || status == Finished
  }

  lemma GoingIff(seqs: map<SeqId, Sequence>, g: Group)
    ensures Going(seqs, g) <==> !GroupFinished(seqs, g)
  {
    if !GroupFinished(seqs, g) {
      var i :| i in g.seqs && !(i in seqs && seqs[i].status.IsFinished());
      var k :| 0 <= k < |g.seqs| && g.seqs[k] == i;
    }
  }

  /**
   Clean-up in any valid state, for groups of any size: the running groups that stay are exactly those still going, in
   the order they had, the tables that stay are exactly those of groups that stay or are swapped out, and nothing else
   changes.
   */
  lemma CleanUpExact(own: Owner, s: State)
    requires SchedulerOk(own, s)
    ensures FreeFinished(s).Done?
    ensures var s' := FreeFinished(s).value;
            && SchedulerOk(own, s')
            && s'.waiting == s.waiting && s'.swappedOut == s.swappedOut && s'.seqs == s.seqs
            && (forall g :: g in s'.running <==> g in s.running && Going(s.seqs, g)) && InOrder(s'.running, s.running)
            && (forall i :: i in s'.engine.tables <==>
                  i in s.engine.tables && (own[i] in Ids(s.swappedOut) || own[i] in Ids(s'.running)))
            && (forall i :: i in s'.engine.tables ==> s'.engine.tables[i] == s.engine.tables[i])
  {
    hide Consistent, NoSharing, StepInvariant.Placed, FreeFinishedGroups, Going, GroupFinished, GroupOk, References;
    CleanUpSafe(own, s);
    CleanUpKeepsSeqs(s);
    var s' := FreeFinished(s).value;
    UnfinishedOk(own, s.seqs, s.running);
    UnfinishedOrder(s.seqs, s.running);
    forall g ensures g in s'.running <==> g in s.running && Going(s.seqs, g) {
      GoingIff(s.seqs, g);
    }
  }

  /** The groups of `p` come in the order in which they come in `q`. */
  ghost predicate InOrder(p: seq<Group>, q: seq<Group>) {
    forall i, j :: 0 <= i < j < |p| ==> Before(q, p[i], p[j])
  }

  ghost predicate Before(q: seq<Group>, g: Group, h: Group) {
    exists a, b :: 0 <= a < b < |q| && q[a] == g && q[b] == h
  }

  lemma {:induction false} UnfinishedOrder(seqs: map<SeqId, Sequence>, q: seq<Group>)
    ensures InOrder(Unfinished(seqs, q), q) && (forall g :: g in Unfinished(seqs, q) ==> g in q)
    decreases |q|
  {
    hide GroupFinished;
    if q != [] {
      var rest := Unfinished(seqs, q[1..]);
      UnfinishedOrder(seqs, q[1..]);
      var p := Unfinished(seqs, q);
      forall i, j | 0 <= i < j < |p| ensures Before(q, p[i], p[j]) {
        if GroupFinished(seqs, q[0]) {
          assert p == rest;
          BeforeLater(q, p[i], p[j]);
        } else {
          assert p == [q[0]] + rest;
          if i == 0 {
            assert p[j] in rest && p[j] in q[1..];
            var b :| 0 <= b < |q[1..]| && q[1..][b] == p[j];
            assert q[0] == p[i] && q[b + 1] == p[j];
          } else {
            assert p[i] == rest[i - 1] && p[j] == rest[j - 1];
            BeforeLater(q, p[i], p[j]);
          }
        }
      }
    }
  }

  lemma BeforeLater(q: seq<Group>, g: Group, h: Group)
    requires q != [] && Before(q[1..], g, h)
    ensures Before(q, g, h)
  {
    var a, b :| 0 <= a < b < |q[1..]| && q[1..][a] == g && q[1..][b] == h;
    assert q[a + 1] == g && q[b + 1] == h;
  }

  // ----- Finishing in a run

  lemma RunTwo(c: Config, numCpuBlocks: nat, events: seq<Event>, a: Event, b: Event)
    requires Run(c, numCpuBlocks, events).Done? && Next(c, Run(c, numCpuBlocks, events).value, a).Done?
    ensures Run(c, numCpuBlocks, events + [a, b])
         == Next(c, Next(c, Run(c, numCpuBlocks, events).value, a).value, b)
  {
    hide Next;
    assert (events + [a, b])[..|events| + 1] == events + [a];
    assert (events + [a])[..|events|] == events;
  }

  lemma RunningSequence(own: Owner, s: State, i: SeqId)
    requires SchedulerOk(own, s) && AllSingle(s.running) && i in own && own[i] in Ids(s.running)
    ensures i in s.engine.tables && i in s.seqs && (exists g :: g in s.running && g.seqs == [i] && g.id == own[i])
  {
    hide Consistent, NoSharing, StepInvariant.Placed;
    var g :| g in s.running && g.id == own[i];
    assert GroupOk(own, g) && |g.seqs| == 1;
    assert i in g.seqs;
    assert g.seqs == [i];
  }

  /**
   After `Finish(i)` and a clean-up the group of `i` has finished, `i` has no table, and what the tables lost the free
   list has; if no other running sequence had finished that is the table of `i`.
   */
  lemma FinishFrees(c: Config, numCpuBlocks: nat, events: seq<Event>, i: SeqId)
    requires Run(c, numCpuBlocks, events).Done?
    requires var w := Run(c, numCpuBlocks, events).value; i in w.own && w.own[i] in Ids(w.state.running)
    ensures Run(c, numCpuBlocks, events + [Finish(i), CleanUp]).Done?
    ensures var w := Run(c, numCpuBlocks, events).value;
            var w' := Run(c, numCpuBlocks, events + [Finish(i), CleanUp]).value;
            var e, e' := w.state.engine, w'.state.engine;
            && w'.own == w.own && w.own[i] in w'.finished && i in e.tables && i !in e'.tables
            && multiset(e'.pools.gpuFree) + References(e'.tables) == multiset(e.pools.gpuFree) + References(e.tables)
            && (OnlyOne(w, i) ==>
                  && e'.tables == e.tables - {i}
                  && multiset(e'.pools.gpuFree) == multiset(e.pools.gpuFree) + multiset(e.tables[i])
                  && |e'.pools.gpuFree| == |e.pools.gpuFree| + |e.tables[i]|)
  {
    hide Run, WorldOk, FreeFinished, References, Exclusive, SchedulerOk, AllSingle;
    RunOk(c, numCpuBlocks, events);
    var w := Run(c, numCpuBlocks, events).value;
    var w1 := Next(c, w, Finish(i)).value;
    FinishedWorld(c, numCpuBlocks, w, i);
    CleanUpExact(w1.own, w1.state);
    CleanUpSafe(w1.own, w1.state);
    RunTwo(c, numCpuBlocks, events, Finish(i), CleanUp);
    RunOk(c, numCpuBlocks, events + [Finish(i), CleanUp]);
    var w' := Next(c, w1, CleanUp).value;
    PoolDivided(c, numCpuBlocks, w);
    PoolDivided(c, numCpuBlocks, w');
    Leaves(w1, w', i);
    if OnlyOne(w, i) {
      OthersStay(w, w1, w', i);
      OneTableBack(w.state.engine, w'.state.engine, i);
    }
  }

  /** No other running sequence has finished. */
  ghost predicate OnlyOne(w: World, i: SeqId) {
    forall g, j :: g in w.state.running && j in g.seqs && j != i && j in w.state.seqs ==> !Ended(w.state.seqs[j].status)
  }

  lemma OneTableBack(e: Engine, e': Engine, i: SeqId)
    requires i in e.tables && e'.tables == e.tables - {i}
    requires multiset(e'.pools.gpuFree) + References(e'.tables) == multiset(e.pools.gpuFree) + References(e.tables)
    ensures multiset(e'.pools.gpuFree) == multiset(e.pools.gpuFree) + multiset(e.tables[i])
    ensures |e'.pools.gpuFree| == |e.pools.gpuFree| + |e.tables[i]|
  {
    hide References;
    ReferencesSplit(e.tables, i);
    var a, b, r := multiset(e'.pools.gpuFree), multiset(e.pools.gpuFree), References(e'.tables);
    var t := multiset(e.tables[i]);
    assert a + r == b + (t + r);
    forall x ensures a[x] == (b + t)[x] {
      assert (a + r)[x] == a[x] + r[x] && (b + (t + r))[x] == b[x] + t[x] + r[x];
    }
    assert a == b + t;
  }

  lemma FinishedWorld(c: Config, numCpuBlocks: nat, w: World, i: SeqId)
    requires WorldOk(c, numCpuBlocks, w) && i in w.own && w.own[i] in Ids(w.state.running)
    ensures var w1 := Next(c, w, Finish(i)).value;
            && WorldOk(c, numCpuBlocks, w1) && SchedulerOk(w1.own, w1.state) && AllSingle(w1.state.running)
            && w1.state.swappedOut == [] && w.state.swappedOut == [] && SchedulerOk(w.own, w.state)
            && i in w1.state.seqs && Ended(w1.state.seqs[i].status)
            && i in w1.state.engine.tables
            && (exists g :: g in w1.state.running && g.seqs == [i] && g.id == w.own[i])
  {
    hide SchedulerOk, NewPools, NumSeqs, Exclusive, AllSingle, Numbered;
    RunningSequence(w.own, w.state, i);
    NextOk(c, numCpuBlocks, w, Finish(i));
  }

  lemma Leaves(w1: World, w': World, i: SeqId)
    requires SchedulerOk(w1.own, w1.state) && i in w1.own && i in w1.state.seqs && Ended(w1.state.seqs[i].status)
    requires w1.state.swappedOut == [] && (exists g :: g in w1.state.running && g.seqs == [i] && g.id == w1.own[i])
    requires FreeFinished(w1.state).Done? && w'.state == FreeFinished(w1.state).value
    requires w'.finished == w1.finished + FinishedIds(w1.state.seqs, w1.state.running)
    requires forall g :: g in w'.state.running <==> g in w1.state.running && Going(w1.state.seqs, g)
    requires forall j :: j in w'.state.engine.tables <==>
               j in w1.state.engine.tables
               && (w1.own[j] in Ids(w1.state.swappedOut) || w1.own[j] in Ids(w'.state.running))
    requires w'.state.running == Unfinished(w1.state.seqs, w1.state.running)
    ensures w1.own[i] in w'.finished && i !in w'.state.engine.tables
  {
    hide FreeFinished, TablesOk, Unfinished;
    var g :| g in w1.state.running && g.seqs == [i] && g.id == w1.own[i];
    assert !Going(w1.state.seqs, g);
    forall h | h in w'.state.running ensures h.id != g.id {
      assert h in w1.state.running && h != g;
    }
    assert g.id in Ids(w1.state.running) && g.id !in Ids(w'.state.running);
  }

  lemma OthersStay(w: World, w1: World, w': World, i: SeqId)
    requires SchedulerOk(w1.own, w1.state) && AllSingle(w1.state.running) && w1.state.swappedOut == [] && OnlyOne(w, i)
    requires w1.own == w.own && w1.state.running == w.state.running && w1.state.engine == w.state.engine
    requires forall j :: j != i && j in w1.state.seqs ==> j in w.state.seqs && w1.state.seqs[j] == w.state.seqs[j]
    requires forall g :: g in w'.state.running <==> g in w1.state.running && Going(w1.state.seqs, g)
    requires i !in w'.state.engine.tables
    requires forall j :: j in w'.state.engine.tables <==>
               j in w1.state.engine.tables
               && (w1.own[j] in Ids(w1.state.swappedOut) || w1.own[j] in Ids(w'.state.running))
    requires forall j :: j in w'.state.engine.tables ==> w'.state.engine.tables[j] == w1.state.engine.tables[j]
    ensures w'.state.engine.tables == w.state.engine.tables - {i}
  {
    hide SchedulerOk, AllSingle;
    forall j | j in w1.state.engine.tables && j != i ensures j in w'.state.engine.tables {
      TableRuns(w1.own, w1.state, j);
      RunningSequence(w1.own, w1.state, j);
      var g :| g in w1.state.running && g.seqs == [j] && g.id == w1.own[j];
      assert j in g.seqs;
      assert Going(w1.state.seqs, g) by { assert g.seqs[0] == j; }
      assert g.id in Ids(w'.state.running);
    }
  }

  lemma TableRuns(own: Owner, s: State, j: SeqId)
    requires SchedulerOk(own, s) && s.swappedOut == [] && j in s.engine.tables
    ensures j in own && own[j] in Ids(s.running)
  {
    hide Consistent, NoSharing, StepInvariant.Placed, QueuesOk;
    assert Ids(s.swappedOut) == {};
  }

  // ----- When all have finished

  function Finishes(ids: seq<SeqId>): seq<Event> {
    seq(|ids|, k requires 0 <= k < |ids| => Finish(ids[k]))
  }

  /** The statuses of these are `Finished`; nothing else changes. */
  ghost predicate AllMarked(w: World, w': World, ids: seq<SeqId>) {
    && w'.own == w.own && w'.nextGroup == w.nextGroup && w'.nextSeq == w.nextSeq && w'.finished == w.finished
    && w'.state == w.state.(seqs := w'.state.seqs) && w'.state.seqs.Keys == w.state.seqs.Keys
    && (forall i :: i in ids && i in w.state.seqs ==> Ended(w'.state.seqs[i].status))
  }

  lemma {:induction false} RunFinishes(c: Config, numCpuBlocks: nat, events: seq<Event>, ids: seq<SeqId>)
    requires Run(c, numCpuBlocks, events).Done?
    ensures Run(c, numCpuBlocks, events + Finishes(ids)).Done?
    ensures AllMarked(Run(c, numCpuBlocks, events).value, Run(c, numCpuBlocks, events + Finishes(ids)).value, ids)
    decreases |ids|
  {
    hide Run;
    if ids == [] {
      assert events + Finishes(ids) == events;
    } else {
      var n := |ids| - 1;
      RunFinishes(c, numCpuBlocks, events, ids[..n]);
      RunOneMore(c, numCpuBlocks, events + Finishes(ids[..n]), Finish(ids[n]));
      assert events + Finishes(ids) == events + Finishes(ids[..n]) + [Finish(ids[n])];
      assert ids == ids[..n] + [ids[n]];
    }
  }

  lemma RunOneMore(c: Config, numCpuBlocks: nat, events: seq<Event>, a: Event)
    requires Run(c, numCpuBlocks, events).Done?
    ensures Run(c, numCpuBlocks, events + [a]) == Next(c, Run(c, numCpuBlocks, events).value, a)
  {
    hide Next;
    assert (events + [a])[..|events|] == events;
  }

  /**
   If every request has been admitted and none is waiting again, and then every running sequence finishes and there is a
   clean-up, nothing runs, every group ever requested has finished, and both pools are full again.
   */
  lemma FinishAllFreesAll(c: Config, numCpuBlocks: nat, events: seq<Event>, ids: seq<SeqId>)
    requires Run(c, numCpuBlocks, events).Done? && Run(c, numCpuBlocks, events).value.state.waiting == []
    requires var w := Run(c, numCpuBlocks, events).value;
             forall i :: i in w.own && w.own[i] in Ids(w.state.running) ==> i in ids
    ensures Run(c, numCpuBlocks, events + Finishes(ids) + [CleanUp]).Done?
    ensures var w := Run(c, numCpuBlocks, events + Finishes(ids) + [CleanUp]).value;
            && w.state.running == [] && w.state.waiting == [] && w.finished == Below(w.nextGroup)
            && multiset(w.state.engine.pools.gpuFree) == multiset(Fresh(Gpu, c.numGpuBlocks))
            && multiset(w.state.engine.pools.cpuFree) == multiset(Fresh(Cpu, numCpuBlocks))
  {
    hide Run, WorldOk, SchedulerOk, AllSingle, Exclusive, FreeFinished;
    RunFinishes(c, numCpuBlocks, events, ids);
    var w, w1 := Run(c, numCpuBlocks, events).value, Run(c, numCpuBlocks, events + Finishes(ids)).value;
    RunOk(c, numCpuBlocks, events + Finishes(ids));
    ValidParts(c, numCpuBlocks, w1);
    CleanUpExact(w1.own, w1.state);
    RunOneMore(c, numCpuBlocks, events + Finishes(ids), CleanUp);
    var s' := FreeFinished(w1.state).value;
    if s'.running != [] {
      var g := s'.running[0];
      assert g in s'.running;
      AllEnded(w, w1, ids, g);
    }
    AllFinishedAllFree(c, numCpuBlocks, events + Finishes(ids) + [CleanUp]);
  }

  lemma ValidParts(c: Config, numCpuBlocks: nat, w: World)
    requires WorldOk(c, numCpuBlocks, w)
    ensures SchedulerOk(w.own, w.state)
  {
    hide SchedulerOk, AllSingle, Exclusive, Numbered, NewPools, NumSeqs;
  }

  lemma AllEnded(w: World, w1: World, ids: seq<SeqId>, g: Group)
    requires AllMarked(w, w1, ids) && SchedulerOk(w1.own, w1.state) && g in w1.state.running
    requires forall i :: i in w.own && w.own[i] in Ids(w.state.running) ==> i in ids
    ensures !Going(w1.state.seqs, g)
  {
    hide TablesOk;
    assert GroupOk(w1.own, g) && g.id in Ids(w1.state.running);
    forall k | 0 <= k < |g.seqs| ensures g.seqs[k] in w1.state.seqs && Ended(w1.state.seqs[g.seqs[k]].status) {
      assert g.seqs[k] in g.seqs;
    }
  }

  // ----- Groups of any size

  /** A move changes no length but that of the sequence it gives a token. */
  lemma MoveLens(c: Config, own: Owner, s: State, move: Move)
    requires SchedulerOk(own, s) && PoolBounded(c, s.engine) && Make(c, s, move).Done?
    ensures var s' := Make(c, s, move).value;
            && s'.seqs.Keys == s.seqs.Keys
            && (forall i :: i in s.seqs ==> s'.seqs[i].len == s.seqs[i].len + (if move == Token(i) then 1 else 0))
  {
    hide SchedulerOk, PoolBounded, Schedule, FreeFinished;
    match move
    case Step => ScheduleLens(c, own, s);
    case Clean => CleanUpKeepsSeqs(s);
    case Token(i) =>
    case Stop(i) =>
  }

  function Stops(ids: seq<SeqId>): seq<Move> {
    seq(|ids|, k requires 0 <= k < |ids| => Stop(ids[k]))
  }

  /** Stopping these sequences marks them finished and changes nothing else. */
  lemma {:induction false} StopsMark(c: Config, s: State, ids: seq<SeqId>, more: seq<Move>) returns (s': State)
    ensures MakeAll(c, s, Stops(ids) + more) == MakeAll(c, s', more)
    ensures s' == s.(seqs := s'.seqs) && s'.seqs.Keys == s.seqs.Keys
    ensures forall i :: i in s.seqs ==>
              && s'.seqs[i].len == s.seqs[i].len
              && s'.seqs[i].status == if i in ids then Finished else s.seqs[i].status
    decreases |ids|
  {
    if ids == [] {
      s' := s;
      assert Stops(ids) + more == more;
    } else {
      var s1 := Make(c, s, Stop(ids[0])).value;
      s' := StopsMark(c, s1, ids[1..], more);
      assert Stops(ids) + more == [Stop(ids[0])] + (Stops(ids[1..]) + more);
      MakeFirst(c, s, Stop(ids[0]), Stops(ids[1..]) + more);
      assert ids == [ids[0]] + ids[1..];
    }
  }

  lemma MakeFirst(c: Config, s: State, move: Move, more: seq<Move>)
    requires Make(c, s, move).Done?
    ensures MakeAll(c, s, [move] + more) == MakeAll(c, Make(c, s, move).value, more)
  {
    hide Make;
    assert ([move] + more)[1..] == more;
  }

  /**
   From any valid state: once all sequences of a running group have been stopped, a clean-up removes the group and all
   its tables; the groups of which some sequence goes on stay, with their tables, and so does everything swapped out.
   */
  lemma StopThenClean(c: Config, own: Owner, s: State, g: Group)
    requires SchedulerOk(own, s) && g in s.running
    ensures MakeAll(c, s, Stops(g.seqs) + [Clean]).Done?
    ensures var s' := MakeAll(c, s, Stops(g.seqs) + [Clean]).value;
            && SchedulerOk(own, s') && g !in s'.running && Tableless(s'.engine.tables, g.seqs)
            && s'.waiting == s.waiting && s'.swappedOut == s.swappedOut
            && (forall h :: h in s'.running <==> h in s.running && h != g && Going(s.seqs, h))
            && (forall i :: i in s.engine.tables && own[i] in Ids(s'.running) + Ids(s.swappedOut) ==>
                  i in s'.engine.tables && s'.engine.tables[i] == s.engine.tables[i])
  {
    hide SchedulerOk, FreeFinished, MakeAll;
    var s1 := StopsMark(c, s, g.seqs, [Clean]);
    SeqsChanged(own, s, s1.seqs);
    CleanUpExact(own, s1);
    CleanLast(c, s1);
    var s' := FreeFinished(s1).value;
    forall h | h in s.running ensures Going(s1.seqs, h) <==> h != g && Going(s.seqs, h) {
      GoingOn(own, s, s1, g, h);
    }
    GoneGroup(own, s, s', g);
  }

  lemma CleanLast(c: Config, s: State)
    requires FreeFinished(s).Done?
    ensures MakeAll(c, s, [Clean]) == FreeFinished(s)
  {
    hide FreeFinished;
    assert [Clean][1..] == [];
  }

  lemma GoingOn(own: Owner, s: State, s1: State, g: Group, h: Group)
    requires SchedulerOk(own, s) && g in s.running && h in s.running && s1.seqs.Keys == s.seqs.Keys
    requires forall i :: i in s.seqs ==> s1.seqs[i].status == if i in g.seqs then Finished else s.seqs[i].status
    ensures Going(s1.seqs, h) <==> h != g && Going(s.seqs, h)
  {
    hide TablesOk;
    assert GroupOk(own, g) && GroupOk(own, h);
    if h == g {
      forall k | 0 <= k < |g.seqs| ensures g.seqs[k] in s1.seqs && Ended(s1.seqs[g.seqs[k]].status) {
        assert g.seqs[k] in g.seqs;
      }
    } else {
      forall k | 0 <= k < |h.seqs| ensures h.seqs[k] !in g.seqs {
        assert h.seqs[k] in h.seqs;
      }
    }
  }

  lemma GoneGroup(own: Owner, s: State, s': State, g: Group)
    requires SchedulerOk(own, s) && SchedulerOk(own, s') && g in s.running && g !in s'.running
    requires s'.swappedOut == s.swappedOut && (forall h :: h in s'.running ==> h in s.running)
    ensures Tableless(s'.engine.tables, g.seqs)
  {
    hide TablesOk;
    assert GroupOk(own, g) && g.id in Ids(s.running);
    NoTables(own, s', g);
  }
}
