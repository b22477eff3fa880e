/** No schedule step loses or doubles a group, whatever the group sizes. */
module Conservation {
  import opened StepInvariant
  import opened Scheduler
  import opened QueueOrder
  import opened ScheduleSafety
  import opened ScheduleTheorem
  import opened Runs
  import opened Preemption

  ghost function Queued(s: State): multiset<Group> {
    multiset(s.waiting) + multiset(s.running) + multiset(s.swappedOut)
  }

  ghost predicate OnlyLarge(m: multiset<Group>) {
    forall g :: g in m ==> |g.seqs| != 1
  }

  /** The groups at the back of the sorted running queue from place `n` on. */
  ghost predicate LastOf(s: State, last: seq<Group>, n: nat) {
    n <= |LatestFirst(s.running)| && last == LatestFirst(s.running)[n..]
  }

  lemma DecodeConserves(c: Config, own: Owner, s: State) returns (last: seq<Group>, n: nat)
    requires SchedulerOk(own, s) && Decode(c, s).Done?
    ensures Queued(Decode(c, s).value.0) + multiset(FatesOf(s, last).aborted) == Queued(s)
    ensures OnlyLarge(multiset(FatesOf(s, last).aborted)) && LastOf(s, last, n)
  {
    hide SchedulerOk, Decode, LatestFirst, FatesOf, Queued, Requeued;
    var k;
    n, k := DecodeFates(c, own, s);
    RequeuedConserves(own, s, Decode(c, s).value.0, n, k);
    last := LatestFirst(s.running)[n..];
    FateMultiset(s, last);
  }

  lemma FateMultiset(s: State, last: seq<Group>)
    ensures var f := FatesOf(s, last);
            && multiset(f.requeued) + multiset(f.swapped) + multiset(f.aborted) == multiset(last)
            && OnlyLarge(multiset(f.aborted))
  {
    hide Settle;
    SettleCounts(s.engine.tables, NoFates(s), Reversed(last));
    ReversedMultiset(last);
  }

  lemma RequeuedConserves(own: Owner, s: State, s': State, n: nat, k: nat)
    requires Requeued(own, s, s', n, k)
    ensures n <= |LatestFirst(s.running)|
    ensures Queued(s') + multiset(FatesOf(s, LatestFirst(s.running)[n..]).aborted) == Queued(s)
  {
    hide LatestFirst, FatesOf, Statuses, Entries;
    var q := LatestFirst(s.running);
    var last := q[n..];
    var f := FatesOf(s, last);
    var sorted := LatestFirst(s.swappedOut + f.swapped);
    LatestFirstDescending(s.running);
    LatestFirstDescending(s.swappedOut + f.swapped);
    SplitMultiset(q, n);
    SplitMultiset(sorted, k);
    FateMultiset(s, last);
    Balanced(multiset(s'.waiting), multiset(s'.running), multiset(s'.swappedOut), multiset(s.waiting),
             multiset(s.swappedOut), multiset(q[..n]), multiset(last), multiset(sorted[..k]), multiset(sorted[k..]),
             multiset(f.requeued), multiset(f.swapped), multiset(f.aborted));
  }

  lemma SplitMultiset(q: seq<Group>, n: nat)
    requires n <= |q|
    ensures multiset(q) == multiset(q[..n]) + multiset(q[n..])
  {
    assert q == q[..n] + q[n..];
  }

  lemma Balanced(waiting': multiset<Group>, running': multiset<Group>, swapped': multiset<Group>,
                 waiting: multiset<Group>, swapped: multiset<Group>, front: multiset<Group>, last: multiset<Group>,
                 joined: multiset<Group>, left: multiset<Group>, r: multiset<Group>, o: multiset<Group>,
                 a: multiset<Group>)
    requires waiting' == r + waiting && running' == front + joined && swapped' == left
    requires joined + left == swapped + o && r + o + a == last
    ensures waiting' + running' + swapped' + a == waiting + (front + last) + swapped
  {
    calc {
      waiting' + running' + swapped' + a;
      r + waiting + front + (joined + left) + a;
      r + waiting + front + (swapped + o) + a;
      waiting + front + (r + o + a) + swapped;
    }
  }

  /**
   After a step each group is in exactly one queue, except those that had to be aborted: of the groups preempted, which
   are the last of the sorted running queue, these are the ones of several sequences whose entries exceeded the CPU
   blocks that were free when their turn came.
   */
  lemma ScheduleConserves(c: Config, own: Owner, s: State) returns (aborted: multiset<Group>, last: seq<Group>, n: nat)
    requires SchedulerOk(own, s) && PoolBounded(c, s.engine) && Schedule(c, s).Done?
    ensures Queued(Schedule(c, s).value.0) + aborted == Queued(s) && OnlyLarge(aborted)
    ensures aborted == multiset(FatesOf(s, last).aborted) && LastOf(s, last, n)
  {
    hide SchedulerOk, Admit, Decode, PoolBounded, LatestFirst, FatesOf, OnlyLarge;
    if s.swappedOut == [] && Admit(c, s, [], []).value.1 != [] {
      AdmitSafe(c, own, s, [], []);
      var (s1, scheduled, _) := Admit(c, s, [], []).value;
      assert scheduled[0..] == scheduled;
      AdmittedConserves(s, s1, scheduled);
      aborted, last, n := multiset{}, [], |LatestFirst(s.running)|;
      assert multiset(FatesOf(s, []).aborted) == multiset{} by { NothingPreempted(s); }
      NothingPreempted(s);
    } else {
      if s.swappedOut == [] {
        AdmitSafe(c, own, s, [], []);
        NothingAdmitted(c, s);
      }
      last, n := DecodeConserves(c, own, s);
      aborted := multiset(FatesOf(s, last).aborted);
    }
  }

  lemma AdmittedConserves(s: State, s': State, scheduled: seq<Group>)
    requires Admitted(s, s', scheduled)
    ensures Queued(s') == Queued(s)
  {
  }

  lemma NothingPreempted(s: State)
    ensures FatesOf(s, []).aborted == [] && OnlyLarge(multiset{})
  {
  }
}
