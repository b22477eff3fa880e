/**
 The cache engine: for every layer a key and a value cache on either device, one array cell per physical block. The
 hash maps are iterated in an arbitrary order.
 */
module CacheMachine {
  import opened Outcomes
  import opened Pools
  import opened MemoryOps

  /** Memory as a function of the block; `None` outside the caches. */
  function Memory<D>(gpu: seq<D>, cpu: seq<D>): Block -> Option<D> {
    (b: Block) =>
      var cache := if b.dev.Gpu? then gpu else cpu;
      if b.id < |cache| then Some(cache[b.id]) else None
  }

  ghost predicate Injective(m: map<nat, nat>) {
    forall k, l :: k in m && l in m && m[k] == m[l] ==> k == l
  }

  ghost predicate InRange(m: map<nat, nat>, from: nat, to: nat) {
    forall k :: k in m ==> k < from && m[k] < to
  }

  ghost predicate CopiesInRange(copies: map<nat, seq<nat>>, n: nat) {
    forall s, d :: s in copies && d in copies[s] ==> s < n && d < n
  }

  /** `swap_blocks`: copies whole blocks from one cache to another. */
  method SwapBlocks<D>(src: array<D>, dst: array<D>, m: map<nat, nat>)
    requires src != dst && Injective(m) && InRange(m, src.Length, dst.Length)
    modifies dst
    ensures forall k :: k in m ==> dst[m[k]] == src[k]
    ensures forall x :: 0 <= x < dst.Length && x !in m.Values ==> dst[x] == old(dst[x])
  {
    var keys := m.Keys;
    while keys != {}
      invariant keys <= m.Keys
      invariant forall k :: k in m && k !in keys ==> dst[m[k]] == src[k]
      invariant forall x :: 0 <= x < dst.Length && x !in m.Values ==> dst[x] == old(dst[x])
      decreases |keys|
    {
      var k :| k in keys;
      assert k in m && m[k] in m.Values;
      dst[m[k]] := src[k];
      keys := keys - {k};
    }
  }

  /** The pairs of the batch, in the order in which the map is iterated. */
  method FlattenPairs(copies: map<nat, seq<nat>>) returns (pairs: seq<(nat, nat)>)
    ensures forall p :: p in pairs ==> p.0 in copies && p.1 in copies[p.0]
    ensures forall s, d :: s in copies && d in copies[s] ==> (s, d) in pairs
    ensures (forall s :: s in copies ==> NoDup(copies[s])) ==> NoDup(pairs)
  {
    pairs := [];
    var keys := copies.Keys;
    while keys != {}
      invariant keys <= copies.Keys
      invariant forall p :: p in pairs ==> p.0 in copies && p.0 !in keys && p.1 in copies[p.0]
      invariant forall s, d :: s in copies && s !in keys && d in copies[s] ==> (s, d) in pairs
      invariant (forall s :: s in copies ==> NoDup(copies[s])) ==> NoDup(pairs)
      decreases |keys|
    {
      var s :| s in keys;
      ghost var before := pairs;
      var k := 0;
      while k < |copies[s]|
        invariant k <= |copies[s]| && |pairs| == |before| + k && before <= pairs
        invariant forall i :: 0 <= i < k ==> pairs[|before| + i] == (s, copies[s][i])
      {
        pairs := pairs + [(s, copies[s][k])];
        k := k + 1;
      }
      FlattenStep(before, pairs, s, copies[s]);
      keys := keys - {s};
    }
  }

  lemma FlattenStep(before: seq<(nat, nat)>, pairs: seq<(nat, nat)>, s: nat, dsts: seq<nat>)
    requires before <= pairs && |pairs| == |before| + |dsts|
    requires forall i :: 0 <= i < |dsts| ==> pairs[|before| + i] == (s, dsts[i])
    requires forall p :: p in before ==> p.0 != s
    ensures forall p :: p in pairs <==> p in before || (p.0 == s && p.1 in dsts)
    ensures NoDup(before) && NoDup(dsts) ==> NoDup(pairs)
  {
    forall i | |before| <= i < |pairs| ensures pairs[i] == (s, dsts[i - |before|]) {
      assert pairs[|before| + (i - |before|)] == (s, dsts[i - |before|]);
    }
    forall p ensures p in pairs <==> p in before || (p.0 == s && p.1 in dsts) {
      if p in pairs {
        var i :| 0 <= i < |pairs| && pairs[i] == p;
        assert i < |before| ==> p == before[i];
      }
      if p.0 == s && p.1 in dsts {
        var i :| 0 <= i < |dsts| && dsts[i] == p.1;
        assert pairs[|before| + i] == p;
      }
    }
    if NoDup(before) && NoDup(dsts) {
      forall i, j | 0 <= i < j < |pairs| ensures pairs[i] != pairs[j] {
        if j < |before| {
          assert pairs[i] == before[i] && pairs[j] == before[j];
        } else if i < |before| {
          assert pairs[i] == before[i] && pairs[i] in before;
        } else {
          assert dsts[i - |before|] != dsts[j - |before|];
        }
      }
    }
  }

  /** The key or the value cache of one layer, on both devices. */
  class Plane<D(!new)> {
    const gpuCache: array<D>
    const cpuCache: array<D>

    ghost predicate Valid() {
      gpuCache != cpuCache
    }

    ghost function Mem(): Block -> Option<D>
      reads gpuCache, cpuCache
    {
      Memory(gpuCache[..], cpuCache[..])
    }

    constructor (gpu: array<D>, cpu: array<D>)
      requires gpu != cpu
      ensures Valid() && gpuCache == gpu && cpuCache == cpu
    {
      gpuCache, cpuCache := gpu, cpu;
    }

    /** `swap_blocks` from CPU to GPU. */
    method SwapIn(m: map<nat, nat>)
      requires Valid() && Injective(m) && InRange(m, cpuCache.Length, gpuCache.Length)
      modifies gpuCache
      ensures SwappedIn(m, old(Mem()), Mem())
    {
      SwapBlocks(cpuCache, gpuCache, m);
      forall k | k in m ensures Mem()(Block(Gpu, m[k])) == old(Mem())(Block(Cpu, k)) {
        assert gpuCache[m[k]] == cpuCache[k];
      }
    }

    /** `swap_blocks` from GPU to CPU. */
    method SwapOut(m: map<nat, nat>)
      requires Valid() && Injective(m) && InRange(m, gpuCache.Length, cpuCache.Length)
      modifies cpuCache
      ensures SwappedOut(m, old(Mem()), Mem())
    {
      SwapBlocks(gpuCache, cpuCache, m);
      forall k | k in m ensures Mem()(Block(Cpu, m[k])) == old(Mem())(Block(Gpu, k)) {
        assert cpuCache[m[k]] == gpuCache[k];
      }
    }

    /** The copy kernel on this cache: the pairs run one after the other, in place. */
    method Copy(copies: map<nat, seq<nat>>, ghost inverse: map<nat, nat>)
      requires Valid() && CopiesInRange(copies, gpuCache.Length) && IsCopyInverse(copies, inverse)
      requires CopiesApart(Plan(map[], map[], inverse))
      modifies gpuCache
      ensures Copied(copies, old(Mem()), Mem())
    {
      var pairs := FlattenPairs(copies);
      PairsIndependent(copies, inverse, pairs);
      ghost var before := gpuCache[..];
      CopyAllParallel(before, pairs);
      var k := 0;
      assert pairs[0..] == pairs;
      while k < |pairs|
        invariant k <= |pairs|
        invariant CopyAll(before, pairs) == CopyAll(gpuCache[..], pairs[k..])
      {
        var (src, dst) := pairs[k];
        assert pairs[k] in pairs;
        assert pairs[k..][0] == pairs[k] && pairs[k..][1..] == pairs[k + 1..];
        ghost var now := gpuCache[..];
        gpuCache[dst] := gpuCache[src];
        assert gpuCache[..] == CopyOne(now, pairs[k]);
        k := k + 1;
      }
      assert gpuCache[..] == CopyAll(before, pairs);
      CopiedPairs(copies, pairs, before, gpuCache[..], cpuCache[..]);
    }
  }

  /** Planes `2 * i` and `2 * i + 1` are the key and the value caches of layer `i`. */
  class CacheEngine<D(!new)> {
    const planes: seq<Plane<D>>
    const gpuBlocks: nat
    const cpuBlocks: nat

    /** No array is used twice, and all have their device's number of blocks. */
    ghost predicate Valid() {
      && (forall i :: 0 <= i < |planes| ==>
            && planes[i].Valid() && planes[i].gpuCache.Length == gpuBlocks && planes[i].cpuCache.Length == cpuBlocks)
      && (forall i, j :: 0 <= i < |planes| && 0 <= j < |planes| && i != j ==>
            planes[i].gpuCache != planes[j].gpuCache && planes[i].cpuCache != planes[j].cpuCache)
      && (forall i, j :: 0 <= i < |planes| && 0 <= j < |planes| ==> planes[i].gpuCache != planes[j].cpuCache)
    }

    constructor (planes: seq<Plane<D>>, gpuBlocks: nat, cpuBlocks: nat)
      ensures this.planes == planes && this.gpuBlocks == gpuBlocks && this.cpuBlocks == cpuBlocks
    {
      this.planes, this.gpuBlocks, this.cpuBlocks := planes, gpuBlocks, cpuBlocks;
    }

    ghost function GpuArrays(): set<array<D>> {
      set i | 0 <= i < |planes| :: planes[i].gpuCache
    }

    ghost function CpuArrays(): set<array<D>> {
      set i | 0 <= i < |planes| :: planes[i].cpuCache
    }

    /** `CacheEngine::swap_in`. */
    method SwapIn(m: map<nat, nat>)
      requires Valid() && Injective(m) && InRange(m, cpuBlocks, gpuBlocks)
      modifies GpuArrays()
      ensures forall i :: 0 <= i < |planes| ==> SwappedIn(m, old(planes[i].Mem()), planes[i].Mem())
    {
      hide SwappedIn;
      var i := 0;
      while i < |planes|
        invariant i <= |planes|
        invariant forall j :: 0 <= j < i ==> SwappedIn(m, old(planes[j].Mem()), planes[j].Mem())
        invariant forall j :: i <= j < |planes| ==> planes[j].Mem() == old(planes[j].Mem())
      {
        assert planes[i].gpuCache in GpuArrays();
        planes[i].SwapIn(m);
        i := i + 1;
      }
    }

    /** `CacheEngine::swap_out`. */
    method SwapOut(m: map<nat, nat>)
      requires Valid() && Injective(m) && InRange(m, gpuBlocks, cpuBlocks)
      modifies CpuArrays()
      ensures forall i :: 0 <= i < |planes| ==> SwappedOut(m, old(planes[i].Mem()), planes[i].Mem())
    {
      hide SwappedOut;
      var i := 0;
      while i < |planes|
        invariant i <= |planes|
        invariant forall j :: 0 <= j < i ==> SwappedOut(m, old(planes[j].Mem()), planes[j].Mem())
        invariant forall j :: i <= j < |planes| ==> planes[j].Mem() == old(planes[j].Mem())
      {
        assert planes[i].cpuCache in CpuArrays();
        planes[i].SwapOut(m);
        i := i + 1;
      }
    }

    /** `CacheEngine::copy`. */
    method Copy(copies: map<nat, seq<nat>>, ghost inverse: map<nat, nat>)
      requires Valid() && CopiesInRange(copies, gpuBlocks) && IsCopyInverse(copies, inverse)
      requires CopiesApart(Plan(map[], map[], inverse))
      modifies GpuArrays()
      ensures forall i :: 0 <= i < |planes| ==> Copied(copies, old(planes[i].Mem()), planes[i].Mem())
    {
      hide Copied, IsCopyInverse, CopiesApart;
      var i := 0;
      while i < |planes|
        invariant i <= |planes|
        invariant forall j :: 0 <= j < i ==> Copied(copies, old(planes[j].Mem()), planes[j].Mem())
        invariant forall j :: i <= j < |planes| ==> planes[j].Mem() == old(planes[j].Mem())
      {
        assert planes[i].gpuCache in GpuArrays();
        planes[i].Copy(copies, inverse);
        i := i + 1;
      }
    }

    /**
     `execute_scheduler_ops`: swap in, swap out, copy. In every layer, keys and values, every block ends up with the old
     contents of its origin.
     */
    method Execute(swapIn: map<nat, nat>, swapOut: map<nat, nat>, copies: map<nat, seq<nat>>, ghost plan: Plan)
      requires Valid() && Describes(swapIn, swapOut, copies, plan) && CopiesApart(plan)
      requires InRange(swapIn, cpuBlocks, gpuBlocks) && InRange(swapOut, gpuBlocks, cpuBlocks)
      requires CopiesInRange(copies, gpuBlocks)
      modifies GpuArrays(), CpuArrays()
      ensures forall i, b :: 0 <= i < |planes| ==> planes[i].Mem()(b) == old(planes[i].Mem())(Origin(plan, b))
    {
      hide SwappedIn, SwappedOut, Copied, Origin;
      assert Injective(swapIn) && Injective(swapOut);
      SwapIn(swapIn);
      label afterIn:
      SwapOut(swapOut);
      label afterOut:
      Copy(copies, plan.copy);
      forall i, b | 0 <= i < |planes| ensures planes[i].Mem()(b) == old(planes[i].Mem())(Origin(plan, b)) {
        ExecutionFollowsOrigin(swapIn, swapOut, copies, plan, old(planes[i].Mem()), old@afterIn(planes[i].Mem()),
                               old@afterOut(planes[i].Mem()), planes[i].Mem(), b);
      }
    }
  }

  lemma PairsIndependent(copies: map<nat, seq<nat>>, inverse: map<nat, nat>, pairs: seq<(nat, nat)>)
    requires IsCopyInverse(copies, inverse) && CopiesApart(Plan(map[], map[], inverse))
    requires forall p :: p in pairs ==> p.0 in copies && p.1 in copies[p.0]
    requires NoDup(pairs)
    ensures Independent(pairs)
  {
    forall i | 0 <= i < |pairs| ensures pairs[i].1 in inverse && inverse[pairs[i].1] == pairs[i].0 {
      assert pairs[i] in pairs;
    }
  }

  lemma CopiedPairs<D(!new)>(copies: map<nat, seq<nat>>, pairs: seq<(nat, nat)>, gpu: seq<D>, gpu': seq<D>, cpu: seq<D>)
    requires forall p :: p in pairs ==> p.0 in copies && p.1 in copies[p.0] && p.0 < |gpu| && p.1 < |gpu|
    requires forall s, d :: s in copies && d in copies[s] ==> (s, d) in pairs
    requires |gpu'| == |gpu| && (forall i :: 0 <= i < |pairs| ==> gpu'[pairs[i].1] == gpu[pairs[i].0])
    requires forall x :: 0 <= x < |gpu| && (forall p :: p in pairs ==> p.1 != x) ==> gpu'[x] == gpu[x]
    ensures Copied(copies, Memory(gpu, cpu), Memory(gpu', cpu))
  {
    forall s, d | s in copies && d in copies[s]
      ensures Memory(gpu', cpu)(Block(Gpu, d)) == Memory(gpu, cpu)(Block(Gpu, s))
    {
      var i :| 0 <= i < |pairs| && pairs[i] == (s, d);
      assert pairs[i] in pairs;
    }
  }
}
