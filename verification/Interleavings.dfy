/**
 Whole runs with groups of any size: any interleaving of steps, tokens, finishes and clean-ups from any valid state.
 */
module Interleavings {
  import opened Outcomes
  import opened Engine
  import opened StepInvariant
  import opened Scheduler
  import opened ScheduleSafety
  import opened ScheduleTheorem
  import opened Runs

  datatype Move = Step | Token(id: SeqId) | Stop(id: SeqId) | Clean

  function Make(c: Config, s: State, move: Move): Outcome<State> {
    match move
    case Step =>
      var (s', _) :- Schedule(c, s);
      Done(s')
    case Token(i) => Done(if i in s.seqs then s.(seqs := s.seqs[i := s.seqs[i].(len := s.seqs[i].len + 1)]) else s)
    case Stop(i) => Done(if i in s.seqs then s.(seqs := s.seqs[i := s.seqs[i].(status := Finished)]) else s)
    case Clean => FreeFinished(s)
  }

  function MakeAll(c: Config, s: State, moves: seq<Move>): Outcome<State>
    decreases |moves|
  {
    if moves == [] then
      Done(s)
    else
      var s' :- Make(c, s, moves[0]);
      MakeAll(c, s', moves[1..])
  }

  lemma MoveSafe(c: Config, own: Owner, s: State, move: Move)
    requires SchedulerOk(own, s) && PoolBounded(c, s.engine)
    ensures !move.Step? ==> Make(c, s, move).Done?
    ensures Make(c, s, move).Done? ==>
              SchedulerOk(own, Make(c, s, move).value) && PoolBounded(c, Make(c, s, move).value.engine)
  {
    hide SchedulerOk, Schedule, FreeFinished, PoolBounded;
    match move
    case Step =>
      if Schedule(c, s).Done? {
        var plan := ScheduleSafe(c, own, s);
        SamePoolBound(c, s.engine, Schedule(c, s).value.0.engine);
      }
    case Token(i) =>
      if i in s.seqs {
        SeqsChanged(own, s, s.seqs[i := s.seqs[i].(len := s.seqs[i].len + 1)]);
      }
    case Stop(i) =>
      if i in s.seqs {
        SeqsChanged(own, s, s.seqs[i := s.seqs[i].(status := Finished)]);
      }
    case Clean =>
      CleanUpSafe(own, s);
      SamePoolBound(c, s.engine, FreeFinished(s).value.engine);
  }

  lemma SeqsChanged(own: Owner, s: State, seqs': map<SeqId, Sequence>)
    requires SchedulerOk(own, s) && s.seqs.Keys <= seqs'.Keys
    ensures SchedulerOk(own, s.(seqs := seqs'))
  {
    hide TablesOk, QueueOk, Ids;
    assert QueuesOk(own, s.(seqs := seqs'));
  }

  /** Only a schedule step can panic, and every state reached is valid. */
  lemma {:induction false} InterleavingSafe(c: Config, own: Owner, s: State, moves: seq<Move>)
    requires SchedulerOk(own, s) && PoolBounded(c, s.engine) && MakeAll(c, s, moves).Done?
    ensures var s' := MakeAll(c, s, moves).value; SchedulerOk(own, s') && PoolBounded(c, s'.engine)
    decreases |moves|
  {
    hide SchedulerOk, Make, PoolBounded;
    if moves != [] {
      MoveSafe(c, own, s, moves[0]);
      InterleavingSafe(c, own, Make(c, s, moves[0]).value, moves[1..]);
    }
  }
}
