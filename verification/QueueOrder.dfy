/** What a schedule step does to the queues when every group has one sequence, as every request creates them. */
module QueueOrder {
  import opened Engine
  import opened Scheduler

  predicate AllSingle(q: seq<Group>) {
    forall g :: g in q ==> |g.seqs| == 1
  }

  lemma PreemptSingle(s: State, g: Group, swapOut: map<nat, nat>)
    requires |g.seqs| == 1 && Preempt(s, g, swapOut).Done?
    ensures var (s', swapOut') := Preempt(s, g, swapOut).value;
            && s'.waiting == [g] + s.waiting && s'.running == s.running && s'.swappedOut == s.swappedOut
            && swapOut' == swapOut
  {
  }

  lemma {:induction false} MakeRoomOrder(c: Config, s: State, g: Group, swapOut: map<nat, nat>, preempted: seq<Group>)
    requires |g.seqs| == 1 && AllSingle(s.running) && MakeRoom(c, s, g, swapOut, preempted).Done?
    ensures var room := MakeRoom(c, s, g, swapOut, preempted).value;
            && room.state.running <= s.running && room.state.swappedOut == s.swappedOut && room.swapOut == swapOut
            && (room.selfPreempted ==> room.state.running == [] && room.state.waiting == [g] + s.running + s.waiting)
            && (!room.selfPreempted ==> room.state.running + room.state.waiting == s.running + s.waiting)
            && (room.selfPreempted || CanAppend(c, room.state, g))
    decreases |s.running|
  {
    hide Preempt, CanAppend;
    if !CanAppend(c, s, g) {
      if s.running != [] {
        var n := |s.running| - 1;
        var v := s.running[n];
        assert s.running == s.running[..n] + [v];
        var s1 := s.(running := s.running[..n]);
        PreemptSingle(s1, v, swapOut);
        var (s2, _) := Preempt(s1, v, swapOut).value;
        MakeRoomOrder(c, s2, g, swapOut, preempted + [v]);
        assert s.running[..n] + ([v] + s.waiting) == s.running + s.waiting;
        assert [g] + s.running[..n] + ([v] + s.waiting) == [g] + s.running + s.waiting;
      } else {
        PreemptSingle(s, g, swapOut);
      }
    }
  }

  /** Survivors are a prefix in the same order, preempted groups the remaining suffix at the head of `waiting`. */
  lemma {:induction false} ProcessOrder(c: Config, s: State, kept: seq<Group>, ops: Ops, preempted: seq<Group>)
    requires AllSingle(s.running) && Process(c, s, kept, ops, preempted).Done?
    ensures var (s', ops', preempted') := Process(c, s, kept, ops, preempted).value;
            && kept <= s'.running <= kept + s.running
            && s'.running + s'.waiting == kept + s.running + s.waiting
            && s'.swappedOut == s.swappedOut && ops'.swapOut == ops.swapOut && ops'.swapIn == ops.swapIn
    decreases |s.running|
  {
    hide MakeRoom, AppendGroup, AllSingle;
    var (s', ops', preempted') := Process(c, s, kept, ops, preempted).value;
    if s.running == [] {
      assert kept + s.running == kept;
    } else {
      var g, rest := s.running[0], s.running[1..];
      assert s.running == [g] + rest;
      var s1 := s.(running := rest);
      SingleParts(s.running);
      MakeRoomOrder(c, s1, g, ops.swapOut, preempted);
      var room := MakeRoom(c, s1, g, ops.swapOut, preempted).value;
      var ops1 := ops.(swapOut := room.swapOut);
      SinglePrefix(room.state.running, rest);
      if room.selfPreempted {
        ProcessOrder(c, room.state, kept, ops1, room.preempted);
        assert s' == room.state.(running := kept);
        assert kept + ([g] + rest + s.waiting) == kept + s.running + s.waiting;
      } else {
        var full := FullSeqs(c, room.state.seqs);
        var (e, copies) := AppendGroup(room.state.engine, g.seqs, full, ops.copies).value;
        ProcessOrder(c, room.state.(engine := e), kept + [g], ops1.(copies := copies), room.preempted);
        PrefixStep(kept, g, room.state.running, rest, s'.running);
        OrderStep(kept, g, room.state.running, room.state.waiting, rest, s.waiting);
      }
    }
  }

  lemma SingleParts(q: seq<Group>)
    requires AllSingle(q) && q != []
    ensures |q[0].seqs| == 1 && AllSingle(q[1..])
  {
  }

  lemma SinglePrefix(p: seq<Group>, q: seq<Group>)
    requires AllSingle(q) && p <= q
    ensures AllSingle(p)
  {
    assert p == q[..|p|];
  }

  lemma OrderStep(kept: seq<Group>, g: Group, r: seq<Group>, w: seq<Group>, rest: seq<Group>, waiting: seq<Group>)
    requires r + w == rest + waiting
    ensures kept + [g] + r + w == kept + ([g] + rest) + waiting
  {
    assert kept + [g] + r + w == kept + [g] + (r + w);
    assert kept + ([g] + rest) + waiting == kept + [g] + (rest + waiting);
  }

  lemma PrefixStep(kept: seq<Group>, g: Group, some: seq<Group>, rest: seq<Group>, result: seq<Group>)
    requires kept + [g] <= result <= kept + [g] + some && some <= rest
    ensures kept <= result <= kept + ([g] + rest)
  {
    assert kept + [g] + some <= kept + [g] + rest == kept + ([g] + rest);
  }

  /**
   A step that admits nothing, with no group swapped out: the running queue, latest arrival first, is split into the
   groups that keep running and those preempted to the head of `waiting`; nothing is lost, doubled or reordered.
   */
  lemma DecodeOrder(c: Config, s: State)
    requires AllSingle(s.running) && s.swappedOut == [] && Decode(c, s).Done?
    ensures var (s', out) := Decode(c, s).value;
            && s'.running <= LatestFirst(s.running)
            && s'.running + s'.waiting == LatestFirst(s.running) + s.waiting
            && s'.swappedOut == [] && out.scheduled == s'.running
            && out.ops.swapIn == map[] && out.ops.swapOut == map[]
  {
    hide Process, AllSingle, LatestFirst;
    LatestFirstDescending(s.running);
    LatestFirstDescending([]);
    var s0 := s.(running := LatestFirst(s.running));
    ProcessOrder(c, s0, [], NoMaps, []);
    var (s1, ops, preempted) := Process(c, s0, [], NoMaps, []).value;
    assert [] + s0.running == s0.running;
    assert LatestFirst(s1.swappedOut) == [];
  }

  // ----- The order of the sort

  ghost predicate Ascending(q: seq<Group>) {
    forall i, j :: 0 <= i < j < |q| ==> q[i].arrival <= q[j].arrival
  }

  lemma {:induction false} InsertAscending(sorted: seq<Group>, g: Group)
    requires Ascending(sorted)
    ensures Ascending(InsertByArrival(sorted, g))
    ensures forall h :: h in InsertByArrival(sorted, g) <==> h in sorted || h == g
    decreases |sorted|
  {
    if sorted != [] && sorted[|sorted| - 1].arrival > g.arrival {
      var n := |sorted| - 1;
      assert sorted == sorted[..n] + [sorted[n]];
      InsertAscending(sorted[..n], g);
      var r := InsertByArrival(sorted[..n], g);
      forall i | 0 <= i < |r| ensures r[i].arrival <= sorted[n].arrival {
        assert r[i] in r;
      }
    }
  }

  lemma {:induction false} SortAscending(q: seq<Group>)
    ensures Ascending(SortByArrival(q))
    ensures forall h :: h in SortByArrival(q) <==> h in q
    decreases |q|
  {
    if q != [] {
      var n := |q| - 1;
      assert q == q[..n] + [q[n]];
      SortAscending(q[..n]);
      InsertAscending(SortByArrival(q[..n]), q[n]);
    }
  }

  lemma {:induction false} ReversedAt(q: seq<Group>, i: nat)
    requires i < |q|
    ensures |Reversed(q)| == |q| && Reversed(q)[i] == q[|q| - 1 - i]
    decreases |q|
  {
    if |q| > 1 {
      ReversedAt(q[1..], if i < |q| - 1 then i else 0);
    }
  }

  lemma ReversedLength(q: seq<Group>)
    ensures |Reversed(q)| == |q|
  {
    if q != [] {
      ReversedAt(q, 0);
    }
  }

  lemma {:induction false} InsertMultiset(sorted: seq<Group>, g: Group)
    ensures multiset(InsertByArrival(sorted, g)) == multiset(sorted) + multiset{g}
    decreases |sorted|
  {
    if sorted != [] {
      assert sorted == sorted[..|sorted| - 1] + [sorted[|sorted| - 1]];
      InsertMultiset(sorted[..|sorted| - 1], g);
    }
  }

  lemma {:induction false} SortMultiset(q: seq<Group>)
    ensures multiset(SortByArrival(q)) == multiset(q)
    decreases |q|
  {
    if q != [] {
      assert q == q[..|q| - 1] + [q[|q| - 1]];
      SortMultiset(q[..|q| - 1]);
      InsertMultiset(SortByArrival(q[..|q| - 1]), q[|q| - 1]);
    }
  }

  lemma {:induction false} ReversedMultiset(q: seq<Group>)
    ensures multiset(Reversed(q)) == multiset(q)
    decreases |q|
  {
    if q != [] {
      assert q == [q[0]] + q[1..];
      ReversedMultiset(q[1..]);
    }
  }

  /** Despite its name the sort puts the latest arrival first, and the earliest is preempted first. */
  lemma LatestFirstDescending(q: seq<Group>)
    ensures |LatestFirst(q)| == |q|
    ensures forall i, j :: 0 <= i < j < |q| ==> LatestFirst(q)[i].arrival >= LatestFirst(q)[j].arrival
    ensures multiset(LatestFirst(q)) == multiset(q)
    ensures forall g :: g in LatestFirst(q) <==> g in q
    ensures AllSingle(q) ==> AllSingle(LatestFirst(q))
  {
    hide SortByArrival, Reversed;
    var sorted := SortByArrival(q);
    SortAscending(q);
    SortLength(q);
    forall i | 0 <= i < |q| ensures |LatestFirst(q)| == |q| && LatestFirst(q)[i] == sorted[|q| - 1 - i] {
      ReversedAt(sorted, i);
    }
    ReversedLength(sorted);
    SortMultiset(q);
    ReversedMultiset(sorted);
    SameMembers(LatestFirst(q), q);
  }

  lemma SameMembers(p: seq<Group>, q: seq<Group>)
    requires multiset(p) == multiset(q)
    ensures forall g :: g in p <==> g in q
  {
    forall g ensures g in p <==> g in q {
      assert g in p <==> g in multiset(p);
      assert g in q <==> g in multiset(q);
    }
  }

  lemma {:induction false} InsertLength(sorted: seq<Group>, g: Group)
    ensures |InsertByArrival(sorted, g)| == |sorted| + 1
    decreases |sorted|
  {
    if sorted != [] && sorted[|sorted| - 1].arrival > g.arrival {
      InsertLength(sorted[..|sorted| - 1], g);
    }
  }

  lemma {:induction false} SortLength(q: seq<Group>)
    ensures |SortByArrival(q)| == |q|
    decreases |q|
  {
    if q != [] {
      SortLength(q[..|q| - 1]);
      InsertLength(SortByArrival(q[..|q| - 1]), q[|q| - 1]);
    }
  }

  // ----- Groups that arrive at the same time

  /** The groups of `q` that arrived at `a`, in their order in `q`. */
  function Arrived(q: seq<Group>, a: nat): seq<Group> {
    if q == [] then []
    else Arrived(q[..|q| - 1], a) + if q[|q| - 1].arrival == a then [q[|q| - 1]] else []
  }

  lemma ArrivedPush(q: seq<Group>, g: Group, a: nat)
    ensures Arrived(q + [g], a) == Arrived(q, a) + if g.arrival == a then [g] else []
  {
    assert (q + [g])[..|q|] == q;
  }

  lemma {:induction false} ArrivedAppend(p: seq<Group>, q: seq<Group>, a: nat)
    ensures Arrived(p + q, a) == Arrived(p, a) + Arrived(q, a)
    decreases |q|
  {
    if q == [] {
      assert p + q == p;
    } else {
      var n := |q| - 1;
      assert p + q == (p + q[..n]) + [q[n]];
      ArrivedPush(p + q[..n], q[n], a);
      ArrivedAppend(p, q[..n], a);
    }
  }

  /** A new group goes behind those that arrived when it did. */
  lemma {:induction false} InsertStable(sorted: seq<Group>, g: Group, a: nat)
    ensures Arrived(InsertByArrival(sorted, g), a) == Arrived(sorted, a) + if g.arrival == a then [g] else []
    decreases |sorted|
  {
    hide Arrived;
    if sorted == [] || sorted[|sorted| - 1].arrival <= g.arrival {
      ArrivedPush(sorted, g, a);
    } else {
      var n := |sorted| - 1;
      assert sorted == sorted[..n] + [sorted[n]];
      InsertStable(sorted[..n], g, a);
      ArrivedPush(InsertByArrival(sorted[..n], g), sorted[n], a);
      ArrivedPush(sorted[..n], sorted[n], a);
    }
  }

  lemma {:induction false} SortStable(q: seq<Group>, a: nat)
    ensures Arrived(SortByArrival(q), a) == Arrived(q, a)
    decreases |q|
  {
    if q != [] {
      SortStable(q[..|q| - 1], a);
      InsertStable(SortByArrival(q[..|q| - 1]), q[|q| - 1], a);
    }
  }

  lemma {:induction false} ReversedArrived(q: seq<Group>, a: nat)
    ensures Arrived(Reversed(q), a) == Reversed(Arrived(q, a))
    decreases |q|
  {
    if q != [] {
      var f := if q[0].arrival == a then [q[0]] else [];
      assert q == [q[0]] + q[1..];
      ArrivedAppend([q[0]], q[1..], a);
      ArrivedPush([], q[0], a);
      assert [] + [q[0]] == [q[0]];
      ReversedArrived(q[1..], a);
      ArrivedPush(Reversed(q[1..]), q[0], a);
      assert Arrived(q, a) == f + Arrived(q[1..], a);
      if f != [] {
        assert Arrived(q, a)[1..] == Arrived(q[1..], a);
      } else {
        assert Arrived(q, a) == Arrived(q[1..], a);
      }
    }
  }

  /**
   Groups that arrived at the same time come out in the reverse of their order: the sort is stable, and is reversed. So
   of these the one that was first in the queue is preempted first.
   */
  lemma LatestFirstStable(q: seq<Group>, a: nat)
    ensures |Arrived(LatestFirst(q), a)| == |Arrived(q, a)|
    ensures forall k :: 0 <= k < |Arrived(q, a)| ==>
              Arrived(LatestFirst(q), a)[k] == Arrived(q, a)[|Arrived(q, a)| - 1 - k]
  {
    var f := Arrived(q, a);
    SortStable(q, a);
    ReversedArrived(SortByArrival(q), a);
    ReversedLength(f);
    forall k | 0 <= k < |f| ensures Reversed(f)[k] == f[|f| - 1 - k] {
      ReversedAt(f, k);
    }
  }
}
