/**
 `Scheduler` of src/scheduler/mod.rs as functions on a value: three queues over the block engine.
 Each loop of the source is one recursive function with the same branches; a panic is an outcome.
 */
module Scheduler {
  import opened Outcomes
  import opened Engine

  datatype Status = Waiting | Running | Swapped | FinishedIgnored | FinishedAborted | Finished {
    predicate IsFinished() {
      FinishedIgnored? || FinishedAborted? || Finished?
    }
  }

  /** What the scheduler reads of a sequence: its number of tokens and its status. */
  datatype Sequence = Sequence(len: nat, status: Status)

  /** The sequences of a group in the order in which its hash map yields them. */
  datatype Group = Group(id: nat, seqs: seq<SeqId>, arrival: nat)

  datatype Config = Config(maxNumSeqs: nat, blockSize: nat, numGpuBlocks: nat)

  datatype State = State(waiting: seq<Group>, running: seq<Group>, swappedOut: seq<Group>,
                         engine: Engine, seqs: map<SeqId, Sequence>)

  /** The three maps of a `SchedulerOutput`. */
  datatype Ops = Ops(swapIn: map<nat, nat>, swapOut: map<nat, nat>, copies: map<nat, seq<nat>>)

  datatype Output = Output(scheduled: seq<Group>, ops: Ops, ignored: seq<Group>)

  // ----- Reading sequences

  function Len(seqs: map<SeqId, Sequence>, s: SeqId): nat {
    if s in seqs then seqs[s].len else 0
  }

  /** `blocks_to_add_new_tok() == 1`: the last logical block exists and is full. */
  predicate LastBlockFull(blockSize: nat, len: nat) {
    blockSize > 0 && len > 0 && len % blockSize == 0
  }

  function LogicalBlocks(blockSize: nat, len: nat): nat {
    if blockSize == 0 then 0 else CeilDiv(len, blockSize)
  }

  function FullSeqs(c: Config, seqs: map<SeqId, Sequence>): set<SeqId> {
    set s | s in seqs && LastBlockFull(c.blockSize, seqs[s].len)
  }

  /** `total_blocks_to_add_new_tok`. */
  function BlocksToAppend(ids: seq<SeqId>, full: set<SeqId>): nat {
    if ids == [] then 0 else (if ids[0] in full then 1 else 0) + BlocksToAppend(ids[1..], full)
  }

  /** `get_total_logical_token_blocks`. */
  function TotalLogicalBlocks(c: Config, seqs: map<SeqId, Sequence>, ids: seq<SeqId>): nat {
    if ids == [] then 0
    else LogicalBlocks(c.blockSize, Len(seqs, ids[0])) + TotalLogicalBlocks(c, seqs, ids[1..])
  }

  function SetStatus(seqs: map<SeqId, Sequence>, g: Group, status: Status): map<SeqId, Sequence> {
    map s | s in seqs :: if s in g.seqs then seqs[s].(status := status) else seqs[s]
  }

  predicate GroupFinished(seqs: map<SeqId, Sequence>, g: Group) {
    forall s :: s in g.seqs ==> s in seqs && seqs[s].status.IsFinished()
  }

  function NumSeqs(q: seq<Group>): nat {
    if q == [] then 0 else |q[0].seqs| + NumSeqs(q[1..])
  }

  // ----- Guards

  datatype AllocStatus = Ok | Later | Impossible

  /** `can_allocate`, with its comparison as written. */
  function CanAllocate(c: Config, s: State, g: Group): AllocStatus {
    var required := TotalLogicalBlocks(c, s.seqs, g.seqs);
    if c.numGpuBlocks > |s.engine.pools.gpuFree| + required then Later
    else if c.numGpuBlocks < required then Impossible
    else Ok
  }

  /** `can_append_token_to_seq`. */
  predicate CanAppend(c: Config, s: State, g: Group) {
    BlocksToAppend(g.seqs, FullSeqs(c, s.seqs)) <= |s.engine.pools.gpuFree|
  }

  // ----- Admission

  /**
   The admission loop. The `Impossible` branch removes the group and then falls through, as written,
   to the allocation for the removed group and a second removal from the queue.
   */
  function Admit(c: Config, s: State, scheduled: seq<Group>, ignored: seq<Group>):
      Outcome<(State, seq<Group>, seq<Group>)>
    decreases |s.waiting|
  {
    if s.waiting == [] || c.maxNumSeqs == NumSeqs(s.running) + 1 then
      Done((s, scheduled, ignored))
    else
      var g := s.waiting[0];
      var status := CanAllocate(c, s, g);
      if status.Later? then
        Done((s, scheduled, ignored))
      else
        var s1 := if status.Impossible?
                  then s.(waiting := s.waiting[1..], seqs := SetStatus(s.seqs, g, FinishedIgnored))
                  else s;
        var ignored1 := if status.Impossible? then ignored + [g] else ignored;
        var e :- Allocate(s1.engine, g.seqs, TotalLogicalBlocks(c, s1.seqs, g.seqs));
        if s1.waiting == [] then
          Panic
        else
          var h := s1.waiting[0];
          Admit(c, s1.(waiting := s1.waiting[1..], running := s1.running + [h], engine := e,
                       seqs := SetStatus(s1.seqs, g, Running)),
                scheduled + [h], ignored1)
  }

  // ----- Preemption

  /** `remove_seq_group` on one queue: drops the first group with this id. */
  function RemoveGroup(q: seq<Group>, id: nat): (r: seq<Group>)
    ensures |r| <= |q|
  {
    if q == [] then [] else if q[0].id == id then q[1..] else [q[0]] + RemoveGroup(q[1..], id)
  }

  /** `_preempt`: recompute a group of one sequence, swap out any other, abort what cannot be swapped out. */
  function Preempt(s: State, g: Group, swapOut: map<nat, nat>): (r: Outcome<(State, map<nat, nat>)>)
    ensures r.Done? ==> |r.value.0.running| <= |s.running|
  {
    if |g.seqs| == 1 then
      var e :- FreeGroup(s.engine, g.seqs);
      Done((s.(waiting := [g] + s.waiting, engine := e, seqs := SetStatus(s.seqs, g, Waiting)), swapOut))
    else if CanSwapOut(s.engine, g.seqs) then
      var (e, swap) :- SwapOut(s.engine, g.seqs);
      Done((s.(swappedOut := s.swappedOut + [g], engine := e, seqs := SetStatus(s.seqs, g, Swapped)), swapOut + swap))
    else
      var e :- FreeGroup(s.engine, g.seqs);
      Done((s.(waiting := RemoveGroup(s.waiting, g.id), running := RemoveGroup(s.running, g.id),
               swappedOut := RemoveGroup(s.swappedOut, g.id), engine := e,
               seqs := SetStatus(s.seqs, g, FinishedAborted)),
            swapOut))
  }

  /** Where a pass over the running queue stands: state, swap-outs so far, preempted groups so far. */
  datatype Room = Room(state: State, swapOut: map<nat, nat>, preempted: seq<Group>, selfPreempted: bool)

  /** The inner loop: preempts from the back of `running` until `g` fits, and `g` itself if nothing is left. */
  function MakeRoom(c: Config, s: State, g: Group, swapOut: map<nat, nat>, preempted: seq<Group>): (r: Outcome<Room>)
    ensures r.Done? ==> |r.value.state.running| <= |s.running|
    decreases |s.running|
  {
    if CanAppend(c, s, g) then
      Done(Room(s, swapOut, preempted, false))
    else if s.running != [] then
      var victim := s.running[|s.running| - 1];
      var (s', swapOut') :- Preempt(s.(running := s.running[..|s.running| - 1]), victim, swapOut);
      MakeRoom(c, s', g, swapOut', preempted + [victim])
    else
      var (s', swapOut') :- Preempt(s, g, swapOut);
      Done(Room(s', swapOut', preempted + [g], true))
  }

  /** The outer loop over `running`: each group gets a slot or is preempted; `kept` is the new running queue. */
  function Process(c: Config, s: State, kept: seq<Group>, ops: Ops, preempted: seq<Group>):
      Outcome<(State, Ops, seq<Group>)>
    decreases |s.running|
  {
    if s.running == [] then
      Done((s.(running := kept), ops, preempted))
    else
      var g := s.running[0];
      var room :- MakeRoom(c, s.(running := s.running[1..]), g, ops.swapOut, preempted);
      var ops1 := ops.(swapOut := room.swapOut);
      if room.selfPreempted then
        Process(c, room.state, kept, ops1, room.preempted)
      else
        var (e, copies) :- AppendGroup(room.state.engine, g.seqs, FullSeqs(c, room.state.seqs), ops.copies);
        Process(c, room.state.(engine := e), kept + [g], ops1.(copies := copies), room.preempted)
  }

  // ----- Swapping in

  function SwapInLoop(c: Config, s: State, ops: Ops): Outcome<(State, Ops)>
    decreases |s.swappedOut|
  {
    if s.swappedOut == [] || !CanSwapIn(s.engine, s.swappedOut[0].seqs) then
      Done((s, ops))
    else
      var g := s.swappedOut[0];
      var (e, swap) :- SwapIn(s.engine, g.seqs);
      var (e', copies) :- AppendGroup(e, g.seqs, FullSeqs(c, s.seqs), ops.copies);
      SwapInLoop(c, s.(swappedOut := s.swappedOut[1..], running := s.running + [g], engine := e'),
                 ops.(swapIn := ops.swapIn + swap, copies := copies))
  }

  // ----- One step

  /** Inserts after every group that arrived no later, so the sort is stable. */
  function InsertByArrival(sorted: seq<Group>, g: Group): seq<Group> {
    if sorted == [] || sorted[|sorted| - 1].arrival <= g.arrival then sorted + [g]
    else InsertByArrival(sorted[..|sorted| - 1], g) + [sorted[|sorted| - 1]]
  }

  function SortByArrival(q: seq<Group>): seq<Group> {
    if q == [] then [] else InsertByArrival(SortByArrival(q[..|q| - 1]), q[|q| - 1])
  }

  function Reversed(q: seq<Group>): seq<Group> {
    if q == [] then [] else Reversed(q[1..]) + [q[0]]
  }

  /** `sort_running_by_priority_fcfs`: ascending stable sort, then reversed, so the latest arrival is first. */
  function LatestFirst(q: seq<Group>): seq<Group> {
    Reversed(SortByArrival(q))
  }

  const NoMaps := Ops(map[], map[], map[])

  /** The part of `schedule` after admission: slots for the running groups, preemption, swapping in. */
  function Decode(c: Config, s: State): Outcome<(State, Output)> {
    var (s1, ops, preempted) :- Process(c, s.(running := LatestFirst(s.running)), [], NoMaps, []);
    var s2 := s1.(swappedOut := LatestFirst(s1.swappedOut));
    var (s3, ops') :- if preempted == [] then SwapInLoop(c, s2, ops) else Done((s2, ops));
    Done((s3, Output(s3.running, ops', [])))
  }

  /** `schedule`. */
  function Schedule(c: Config, s: State): Outcome<(State, Output)> {
    var (s1, scheduled, ignored) :- if s.swappedOut == [] then Admit(c, s, [], []) else Done((s, [], []));
    if scheduled != [] || ignored != [] then
      Done((s1, Output(scheduled, NoMaps, ignored)))
    else
      Decode(c, s1)
  }

  // ----- Finished groups and new requests

  function Unfinished(seqs: map<SeqId, Sequence>, q: seq<Group>): seq<Group> {
    if q == [] then [] else (if GroupFinished(seqs, q[0]) then [] else [q[0]]) + Unfinished(seqs, q[1..])
  }

  function FreeFinishedGroups(e: Engine, seqs: map<SeqId, Sequence>, q: seq<Group>): Outcome<Engine>
    decreases |q|
  {
    if q == [] then
      Done(e)
    else if GroupFinished(seqs, q[0]) then
      var e' :- FreeGroup(e, q[0].seqs);
      FreeFinishedGroups(e', seqs, q[1..])
    else
      FreeFinishedGroups(e, seqs, q[1..])
  }

  /** `free_finished_sequence_groups`. */
  function FreeFinished(s: State): Outcome<State> {
    var e :- FreeFinishedGroups(s.engine, s.seqs, s.running);
    Done(s.(running := Unfinished(s.seqs, s.running), engine := e))
  }
}
