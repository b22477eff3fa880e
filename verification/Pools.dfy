/**
 The two block pools of src/scheduler/block_engine.rs: free lists and reference counts.

 A physical block is shared by reference in the source and carries its own counter, so the
 counters live in one map keyed by block, not in a pool.
 */
module Pools {
  import opened Outcomes

  datatype Device = Gpu | Cpu

  datatype Block = Block(dev: Device, id: nat)

  datatype Pools = Pools(gpuFree: seq<Block>, cpuFree: seq<Block>, refs: map<Block, nat>) {

    function FreeList(d: Device): seq<Block> {
      if d.Gpu? then gpuFree else cpuFree
    }

    function WithFreeList(d: Device, list: seq<Block>): Pools {
      if d.Gpu? then this.(gpuFree := list) else this.(cpuFree := list)
    }
  }

  /** All blocks of one pool, in the order in which the allocator creates them. */
  function Fresh(d: Device, n: nat): seq<Block> {
    seq(n, i requires 0 <= i < n => Block(d, i))
  }

  function NewPools(numGpu: nat, numCpu: nat): Pools {
    var all := (set b | b in Fresh(Gpu, numGpu)) + (set b | b in Fresh(Cpu, numCpu));
    Pools(Fresh(Gpu, numGpu), Fresh(Cpu, numCpu), map b | b in all :: 0)
  }

  /** `Allocator::allocate`: pops the last free block; an empty free list is a panic. */
  function Alloc(p: Pools, d: Device): Outcome<(Pools, Block)> {
    var list := p.FreeList(d);
    if list == [] then
      Panic
    else
      var b := list[|list| - 1];
      Done((p.WithFreeList(d, list[..|list| - 1]).(refs := p.refs[b := 1]), b))
  }

  /** `Allocator::free_block` of the pool `d`: a block whose count is already zero is a panic. */
  function Release(p: Pools, d: Device, b: Block): Outcome<Pools> {
    if b !in p.refs || p.refs[b] == 0 then
      Panic
    else
      var q := p.(refs := p.refs[b := p.refs[b] - 1]);
      Done(if q.refs[b] == 0 then q.WithFreeList(d, q.FreeList(d) + [b]) else q)
  }

  /** The direct `refcount += 1` that swapping performs on a block it has already mapped. */
  function Retain(p: Pools, b: Block): Outcome<Pools> {
    if b !in p.refs then Panic else Done(p.(refs := p.refs[b := p.refs[b] + 1]))
  }

  /** The free list of `d` holds exactly the blocks of `d` whose count is zero, each once. */
  ghost predicate FreeListOk(p: Pools, d: Device) {
    && NoDup(p.FreeList(d))
    && (forall b :: b in p.FreeList(d) <==> b.dev == d && b in p.refs && p.refs[b] == 0)
  }

  /** Every count is the number of references `m` holds to the block. */
  ghost predicate Counted(p: Pools, m: multiset<Block>) {
    && (forall b :: b in p.refs ==> p.refs[b] == m[b])
    && (forall b :: b in m ==> b in p.refs)
  }

  ghost predicate Accounted(p: Pools, m: multiset<Block>) {
    FreeListOk(p, Gpu) && FreeListOk(p, Cpu) && Counted(p, m)
  }

  lemma NewPoolsAccounted(numGpu: nat, numCpu: nat)
    ensures Accounted(NewPools(numGpu, numCpu), multiset{})
  {
    var p := NewPools(numGpu, numCpu);
    forall b ensures b in p.refs <==> b in Fresh(Gpu, numGpu) || b in Fresh(Cpu, numCpu) {}
  }

  /** The free list is a stack: a block that became free is the next one taken, and taking it undoes its return. */
  lemma LastFreedFirst(p: Pools, d: Device, b: Block)
    requires b in p.refs && p.refs[b] == 1
    ensures Release(p, d, b).Done? && Alloc(Release(p, d, b).value, d) == Done((p, b))
  {
    var q := Release(p, d, b).value;
    assert q.FreeList(d) == p.FreeList(d) + [b];
    assert q.FreeList(d)[..|p.FreeList(d)|] == p.FreeList(d);
    assert p.refs[b := 0][b := 1] == p.refs;
  }

  lemma AllocAccounted(p: Pools, m: multiset<Block>, d: Device)
    requires Accounted(p, m)
    ensures Alloc(p, d).Done? <==> |p.FreeList(d)| > 0
    ensures Alloc(p, d).Done? ==>
              var (q, b) := Alloc(p, d).value;
              && b.dev == d && b !in m && b in p.refs
              && Accounted(q, m + multiset{b})
              && q.refs.Keys == p.refs.Keys
              && |q.FreeList(d)| == |p.FreeList(d)| - 1
              && (forall o :: o != d ==> q.FreeList(o) == p.FreeList(o))
  {
    if p.FreeList(d) != [] {
      NoDupInit(p.FreeList(d));
      var (q, b) := Alloc(p, d).value;
      assert b in p.FreeList(d);
      assert m[b] == 0;
      assert forall o :: o != d ==> q.FreeList(o) == p.FreeList(o);
    }
  }

  lemma ReleaseAccounted(p: Pools, m: multiset<Block>, b: Block)
    requires Accounted(p, m)
    requires b in m
    ensures Release(p, b.dev, b).Done?
    ensures var q := Release(p, b.dev, b).value;
            && Accounted(q, m - multiset{b})
            && q.refs.Keys == p.refs.Keys
            && |q.FreeList(b.dev)| >= |p.FreeList(b.dev)|
            && (forall o :: o != b.dev ==> q.FreeList(o) == p.FreeList(o))
  {
    assert b in p.refs && p.refs[b] == m[b] > 0;
    assert b !in p.FreeList(b.dev);
    NoDupPush(p.FreeList(b.dev), b);
    var q := Release(p, b.dev, b).value;
    assert forall o :: o != b.dev ==> q.FreeList(o) == p.FreeList(o);
  }

  lemma RetainAccounted(p: Pools, m: multiset<Block>, b: Block)
    requires Accounted(p, m)
    requires b in m
    ensures Retain(p, b).Done?
    ensures var q := Retain(p, b).value;
            && Accounted(q, m + multiset{b})
            && q.refs.Keys == p.refs.Keys
            && (forall o :: q.FreeList(o) == p.FreeList(o))
  {
    var q := Retain(p, b).value;
    assert b !in p.FreeList(b.dev);
    assert forall o :: q.FreeList(o) == p.FreeList(o);
  }

  /** Once nothing is referenced, each free list is a permutation of the blocks of its pool. */
  lemma NothingReferencedAllFree(p: Pools, d: Device)
    requires Accounted(p, multiset{})
    ensures multiset(p.FreeList(d)) == multiset(set b | b in p.refs && b.dev == d)
  {
    var all := set b | b in p.refs && b.dev == d;
    forall b ensures multiset(p.FreeList(d))[b] == multiset(all)[b] {
      NoDupCount(p.FreeList(d), b);
    }
  }
}
