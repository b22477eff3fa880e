/**
 The elements that the threads of a block have handled, each stepping with the stride of the block, one thread after
 the other.
 */
module Strides {
  import opened Arithmetic

  /** Thread `i % threads` handles element `i`; before step `at` of thread `thread` these elements are done. */
  predicate Handled(i: nat, threads: nat, thread: nat, at: nat)
    requires threads > 0
  {
    i % threads < thread || (i % threads == thread && i < at)
  }

  lemma NextHandled(i: nat, threads: nat, thread: nat, at: nat)
    requires threads > 0 && at % threads == thread
    ensures Handled(i, threads, thread, at + threads) <==> Handled(i, threads, thread, at) || i == at
    ensures (at + threads) % threads == thread
  {
    AddMultiple(at, threads, 1);
    if i % threads == thread && at <= i < at + threads {
      SameRemainder(at, i, threads);
    }
  }

  lemma NoneHandled(threads: nat)
    requires threads > 0
    ensures forall i: nat :: !Handled(i, threads, 0, 0)
  {
  }

  lemma NextThread(i: nat, threads: nat, thread: nat, at: nat)
    requires threads > 0 && thread < threads && i < at
    ensures Handled(i, threads, thread + 1, thread + 1) ==> Handled(i, threads, thread, at)
  {
    if i % threads == thread + 1 {
      assert i >= i % threads;
    }
  }

  lemma AllHandled(i: nat, threads: nat)
    requires threads > 0
    ensures Handled(i, threads, threads, threads)
  {
  }
}
