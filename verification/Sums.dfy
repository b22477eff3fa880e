/** Finite sums, and the three ways the kernels split one: in chunks, in strides, and by exchanging two sums. */
module Sums {
  import opened Reductions

  type Term = int -> real

  function Sum(n: nat, f: Term): real {
    if n == 0 then 0.0 else Sum(n - 1, f) + f(n - 1)
  }

  function Shift(f: Term, a: int): Term {
    i => f(a + i)
  }

  /** Chunk `i` of `n` consecutive terms. */
  function Chunk(f: Term, n: int, i: int): Term {
    j => f(i * n + j)
  }

  function ChunkSum(f: Term, n: nat): Term {
    i => Sum(n, Chunk(f, n, i))
  }

  /** Every `m`-th term from `w` on. */
  function Stride(f: Term, m: int, w: int): Term {
    k => f(w + k * m)
  }

  function StrideSum(f: Term, m: int, rounds: nat): Term {
    w => Sum(rounds, Stride(f, m, w))
  }

  lemma {:induction false} SumCongruence(n: nat, f: Term, g: Term)
    requires forall i :: 0 <= i < n ==> f(i) == g(i)
    ensures Sum(n, f) == Sum(n, g)
  {
    if n > 0 {
      SumCongruence(n - 1, f, g);
    }
  }

  lemma {:induction false} SumAdd(n: nat, f: Term, g: Term, h: Term)
    requires forall i :: 0 <= i < n ==> h(i) == f(i) + g(i)
    ensures Sum(n, h) == Sum(n, f) + Sum(n, g)
  {
    if n > 0 {
      SumAdd(n - 1, f, g, h);
    }
  }

  lemma {:induction false} SumZero(n: nat, f: Term)
    requires forall i :: 0 <= i < n ==> f(i) == 0.0
    ensures Sum(n, f) == 0.0
  {
    if n > 0 {
      SumZero(n - 1, f);
    }
  }

  lemma {:induction false} SumSplit(a: nat, b: nat, f: Term)
    ensures Sum(a + b, f) == Sum(a, f) + Sum(b, Shift(f, a))
    decreases b
  {
    if b > 0 {
      SumSplit(a, b - 1, f);
    }
  }

  /** Terms that are zero can be left out. */
  lemma SumPadded(n: nat, more: nat, f: Term)
    requires n <= more && (forall i :: n <= i < more ==> f(i) == 0.0)
    ensures Sum(more, f) == Sum(n, f)
  {
    SumSplit(n, more - n, f);
    SumZero(more - n, Shift(f, n));
  }

  /** A sum is the sum of its chunks. */
  lemma {:induction false} SumChunks(m: nat, n: nat, f: Term)
    ensures m * n >= 0 && Sum(m * n, f) == Sum(m, ChunkSum(f, n))
  {
    if m > 0 {
      SumChunks(m - 1, n, f);
      assert m * n == (m - 1) * n + n;
      SumSplit((m - 1) * n, n, f);
      SumCongruence(n, Shift(f, (m - 1) * n), Chunk(f, n, m - 1));
    }
  }

  /** A sum is the sum of its strides. */
  lemma {:induction false} SumStrides(m: nat, rounds: nat, f: Term)
    ensures rounds * m >= 0 && Sum(rounds * m, f) == Sum(m, StrideSum(f, m, rounds))
    decreases rounds
  {
    if rounds == 0 {
      SumZero(m, StrideSum(f, m, rounds));
    } else {
      var before := (rounds - 1) * m;
      SumStrides(m, rounds - 1, f);
      assert rounds * m == before + m;
      SumSplit(before, m, f);
      forall w | 0 <= w < m
        ensures StrideSum(f, m, rounds)(w) == StrideSum(f, m, rounds - 1)(w) + Shift(f, before)(w)
      {
        assert Stride(f, m, w)(rounds - 1) == f(w + before);
      }
      SumAdd(m, StrideSum(f, m, rounds - 1), Shift(f, before), StrideSum(f, m, rounds));
    }
  }

  function Across(f: (int, int) -> real, j: int): Term {
    i => f(i, j)
  }

  function Along(f: (int, int) -> real, i: int): Term {
    j => f(i, j)
  }

  /** Sums exchange. */
  lemma {:induction false} SumSwap(m: nat, n: nat, f: (int, int) -> real)
    ensures Sum(m, i => Sum(n, Along(f, i))) == Sum(n, j => Sum(m, Across(f, j)))
  {
    if n == 0 {
      SumZero(m, i => Sum(0, Along(f, i)));
    } else {
      SumSwap(m, n - 1, f);
      SumAdd(m, i => Sum(n - 1, Along(f, i)), Across(f, n - 1), i => Sum(n, Along(f, i)));
    }
  }

  // ----- Reductions with addition are sums

  function Plus(): Op {
    (a: real, b: real) => a + b
  }

  lemma PlusLaws()
    ensures Laws(Plus())
  {
  }

  function At(v: seq<real>): Term {
    i => if 0 <= i < |v| then v[i] else 0.0
  }

  lemma {:induction false} TotalIsSum(v: seq<real>)
    requires v != []
    ensures Total(Plus(), v) == Sum(|v|, At(v))
    decreases |v|
  {
    var n := |v| - 1;
    if n > 0 {
      var init := v[..n];
      TotalIsSum(init);
      PlusLaws();
      assert v == init + [v[n]];
      TotalAppend(Plus(), init, [v[n]]);
      SumCongruence(n, At(init), At(v));
    }
  }
}
