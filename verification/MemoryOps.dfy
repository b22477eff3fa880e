/**
 The memory operations a schedule step emits, and what executing them in the fixed order
 swap-in, swap-out, copy (src/openai/pipelines/llm_engine.rs, `execute_scheduler_ops`) does to block contents.
 */
module MemoryOps {
  import opened Outcomes
  import opened Pools

  /** The operations of one step, each map from destination to source. */
  datatype Plan = Plan(inn: map<nat, nat>, out: map<nat, nat>, copy: map<nat, nat>)

  const NoOps := Plan(map[], map[], map[])

  /** The block whose contents GPU block `x` holds once the swap-ins are done. */
  function AfterSwapIn(plan: Plan, x: nat): Block {
    if x in plan.inn then Block(Cpu, plan.inn[x]) else Block(Gpu, x)
  }

  /** The block whose contents before the step are in `b` after it. */
  function Origin(plan: Plan, b: Block): Block {
    if b.dev.Gpu? then
      AfterSwapIn(plan, if b.id in plan.copy then plan.copy[b.id] else b.id)
    else if b.id in plan.out then
      AfterSwapIn(plan, plan.out[b.id])
    else
      b
  }

  ghost predicate IsInverse(m: map<nat, nat>, inverse: map<nat, nat>) {
    && (forall k :: k in m ==> m[k] in inverse && inverse[m[k]] == k)
    && (forall v :: v in inverse ==> inverse[v] in m && m[inverse[v]] == v)
  }

  ghost predicate IsCopyInverse(m: map<nat, seq<nat>>, inverse: map<nat, nat>) {
    && (forall s, d :: s in m && d in m[s] ==> d in inverse && inverse[d] == s)
    && (forall d :: d in inverse ==> inverse[d] in m && d in m[inverse[d]])
    && (forall s :: s in m ==> NoDup(m[s]))
  }

  /** The three hash maps of a scheduler output describe `plan`; so destinations are pairwise distinct. */
  ghost predicate Describes(swapIn: map<nat, nat>, swapOut: map<nat, nat>, copies: map<nat, seq<nat>>, plan: Plan) {
    IsInverse(swapIn, plan.inn) && IsInverse(swapOut, plan.out) && IsCopyInverse(copies, plan.copy)
  }

  /** No block is both source and destination of a copy. */
  ghost predicate CopiesApart(plan: Plan) {
    forall d :: d in plan.copy ==> plan.copy[d] !in plan.copy
  }

  // ----- What execution does to memory

  /** `CacheEngine::swap_in`. */
  ghost predicate SwappedIn<D(!new)>(swapIn: map<nat, nat>, mem: Block -> D, mem': Block -> D) {
    && (forall c :: c in swapIn ==> mem'(Block(Gpu, swapIn[c])) == mem(Block(Cpu, c)))
    && (forall b: Block :: (b.dev.Gpu? ==> b.id !in swapIn.Values) ==> mem'(b) == mem(b))
  }

  /** `CacheEngine::swap_out`. */
  ghost predicate SwappedOut<D(!new)>(swapOut: map<nat, nat>, mem: Block -> D, mem': Block -> D) {
    && (forall g :: g in swapOut ==> mem'(Block(Cpu, swapOut[g])) == mem(Block(Gpu, g)))
    && (forall b: Block :: (b.dev.Cpu? ==> b.id !in swapOut.Values) ==> mem'(b) == mem(b))
  }

  /** `CacheEngine::copy` with all pairs at once: every source is read before any destination is written. */
  ghost predicate Copied<D(!new)>(copies: map<nat, seq<nat>>, mem: Block -> D, mem': Block -> D) {
    && (forall s, d :: s in copies && d in copies[s] ==> mem'(Block(Gpu, d)) == mem(Block(Gpu, s)))
    && (forall b: Block :: (b.dev.Gpu? ==> forall s :: s in copies ==> b.id !in copies[s]) ==> mem'(b) == mem(b))
  }

  /** Executing the operations of a plan gives every block the old contents of its origin. */
  lemma ExecutionFollowsOrigin<D(!new)>(swapIn: map<nat, nat>, swapOut: map<nat, nat>, copies: map<nat, seq<nat>>,
                                        plan: Plan, m0: Block -> D, m1: Block -> D, m2: Block -> D, m3: Block -> D,
                                        b: Block)
    requires Describes(swapIn, swapOut, copies, plan)
    requires SwappedIn(swapIn, m0, m1) && SwappedOut(swapOut, m1, m2) && Copied(copies, m2, m3)
    ensures m3(b) == m0(Origin(plan, b))
  {
    forall x ensures m1(Block(Gpu, x)) == m0(AfterSwapIn(plan, x)) {
      if x !in plan.inn {
        assert x !in swapIn.Values;
      }
    }
    if b.dev.Cpu? {
      assert m3(b) == m2(b);
      if b.id !in plan.out {
        assert b.id !in swapOut.Values;
      }
    } else if b.id in plan.copy {
      assert m2(Block(Gpu, plan.copy[b.id])) == m1(Block(Gpu, plan.copy[b.id]));
    } else {
      assert m3(b) == m2(b) == m1(b);
    }
  }

  // ----- Adding operations to a plan

  /** A copy may be added when its source is not a destination and its destination is not yet used. */
  lemma AddCopyOrigin(plan: Plan, src: nat, dst: nat)
    requires CopiesApart(plan) && src !in plan.copy && dst !in plan.copy && dst !in plan.copy.Values && src != dst
    ensures var plan' := plan.(copy := plan.copy[dst := src]);
            && CopiesApart(plan')
            && Origin(plan', Block(Gpu, dst)) == Origin(plan, Block(Gpu, src))
            && (forall b :: b != Block(Gpu, dst) ==> Origin(plan', b) == Origin(plan, b))
  {
  }

  /** Swap-outs may be added while their sources are not copy destinations. */
  lemma AddOutOrigin(plan: Plan, more: map<nat, nat>, b: Block)
    requires b.dev.Cpu? && b.id in more ==> more[b.id] !in plan.copy
    ensures var plan' := plan.(out := plan.out + more);
            Origin(plan', b) == Origin(plan, if b.dev.Cpu? && b.id in more then Block(Gpu, more[b.id]) else b)
  {
  }

  /** Swap-ins may be added while nothing is swapped out and their destinations take part in no copy. */
  lemma AddInOrigin(plan: Plan, more: map<nat, nat>, b: Block)
    requires plan.out == map[]
    requires forall x :: x in more ==> x !in plan.copy && x !in plan.copy.Values
    ensures var plan' := plan.(inn := plan.inn + more);
            Origin(plan', b) == Origin(plan, if b.dev.Gpu? && b.id in more then Block(Cpu, more[b.id]) else b)
  {
    if b.dev.Gpu? && b.id in plan.copy {
      assert plan.copy[b.id] in plan.copy.Values;
    }
  }

  ghost function Inverse(m: map<nat, nat>): map<nat, nat> {
    map v | v in m.Values :: (var k :| k in m && m[k] == v; k)
  }

  lemma InverseIsInverse(m: map<nat, nat>)
    requires forall k, l :: k in m && l in m && m[k] == m[l] ==> k == l
    ensures IsInverse(m, Inverse(m))
  {
    forall k | k in m ensures m[k] in Inverse(m) && Inverse(m)[m[k]] == k {
      assert m[k] in m.Values;
    }
  }

  /** Extending both maps by parts with new keys and new values: nothing already recorded is lost. */
  lemma InverseUnion(m: map<nat, nat>, inverse: map<nat, nat>, n: map<nat, nat>, inverse': map<nat, nat>)
    requires IsInverse(m, inverse) && IsInverse(n, inverse')
    requires m.Keys !! n.Keys && inverse.Keys !! inverse'.Keys
    ensures IsInverse(m + n, inverse + inverse')
  {
  }

  // ----- The batch of copies

  /** One pair of the batch, executed on its own. */
  function CopyOne<D>(mem: seq<D>, pair: (nat, nat)): seq<D> {
    if pair.0 < |mem| && pair.1 < |mem| then mem[pair.1 := mem[pair.0]] else mem
  }

  function CopyAll<D>(mem: seq<D>, pairs: seq<(nat, nat)>): seq<D>
    decreases |pairs|
  {
    if pairs == [] then mem else CopyAll(CopyOne(mem, pairs[0]), pairs[1..])
  }

  /** Distinct destinations, none of which is a source. */
  ghost predicate Independent(pairs: seq<(nat, nat)>) {
    && (forall i, j :: 0 <= i < j < |pairs| ==> pairs[i].1 != pairs[j].1)
    && (forall i, j :: 0 <= i < |pairs| && 0 <= j < |pairs| ==> pairs[i].0 != pairs[j].1)
  }

  /** Executing independent pairs one after the other is the same as executing them all at once. */
  lemma {:induction false} CopyAllParallel<D(!new)>(mem: seq<D>, pairs: seq<(nat, nat)>)
    requires Independent(pairs)
    requires forall p :: p in pairs ==> p.0 < |mem| && p.1 < |mem|
    ensures |CopyAll(mem, pairs)| == |mem|
    ensures forall i :: 0 <= i < |pairs| ==> CopyAll(mem, pairs)[pairs[i].1] == mem[pairs[i].0]
    ensures forall x :: 0 <= x < |mem| && (forall p :: p in pairs ==> p.1 != x) ==> CopyAll(mem, pairs)[x] == mem[x]
    decreases |pairs|
  {
    if pairs != [] {
      var p, rest := pairs[0], pairs[1..];
      var mem1 := CopyOne(mem, p);
      assert forall q :: q in pairs <==> q == p || q in rest by { assert pairs == [p] + rest; }
      RestIndependent(pairs);
      CopyAllParallel(mem1, rest);
      var r := CopyAll(mem1, rest);
      assert CopyAll(mem, pairs) == r;
      hide CopyAll, Independent;
      assert r[p.1] == mem1[p.1] == mem[p.0];
      forall i | 0 <= i < |pairs| ensures r[pairs[i].1] == mem[pairs[i].0] {
        if i > 0 {
          assert rest[i - 1] == pairs[i] && pairs[i] in rest;
          assert mem1[pairs[i].0] == mem[pairs[i].0];
        }
      }
    }
  }

  lemma RestIndependent(pairs: seq<(nat, nat)>)
    requires Independent(pairs) && pairs != []
    ensures Independent(pairs[1..])
    ensures forall q :: q in pairs[1..] ==> q.1 != pairs[0].1 && q.0 != pairs[0].1
  {
  }

  /** So the order in which the hash map yields the pairs, or the kernel runs them, does not matter. */
  lemma CopyOrderIrrelevant<D(!new)>(mem: seq<D>, pairs: seq<(nat, nat)>, pairs': seq<(nat, nat)>)
    requires Independent(pairs) && Independent(pairs') && multiset(pairs) == multiset(pairs')
    requires forall p :: p in pairs ==> p.0 < |mem| && p.1 < |mem|
    ensures CopyAll(mem, pairs) == CopyAll(mem, pairs')
  {
    assert forall p :: p in pairs <==> p in pairs' by {
      forall p ensures p in pairs <==> p in pairs' {
        assert p in pairs <==> p in multiset(pairs);
        assert p in pairs' <==> p in multiset(pairs');
      }
    }
    CopyAllParallel(mem, pairs);
    CopyAllParallel(mem, pairs');
    forall x | 0 <= x < |mem| ensures CopyAll(mem, pairs)[x] == CopyAll(mem, pairs')[x] {
      if p :| p in pairs && p.1 == x {
        var i :| 0 <= i < |pairs| && pairs[i] == p;
        var j :| 0 <= j < |pairs'| && pairs'[j] == p;
      }
    }
  }
}
