/**
 What attention computes, in terms of its inputs alone: the score of a position as a function of the query, the softmax
 as a quotient of two sums of exponentials, and where the constant added to the sums goes in both kernels.
 */
module AttentionMeaning {
  import opened Sums
  import opened Attention
  import opened Engine
  import opened Addressing
  import opened CachedAttention

  // ----- Scores

  /** `q''` is `a` times `q` plus `b` times `q'`. */
  ghost predicate Combined(q: seq<real>, q': seq<real>, q'': seq<real>, a: real, b: real) {
    && |q| == |q'| == |q''|
    && (forall d :: 0 <= d < |q| ==> q''[d] == a * q[d] + b * q'[d])
  }

  /** The unit vector of element `d`. */
  ghost predicate IsUnit(q: seq<real>, d: nat) {
    d < |q| && q[d] == 1.0 && (forall i :: 0 <= i < |q| && i != d ==> q[i] == 0.0)
  }

  lemma {:induction false} PartialDotLinear(q: seq<real>, q': seq<real>, q'': seq<real>, a: real, b: real, k: Term,
                                            n: nat)
    requires Combined(q, q', q'', a, b) && n <= |q|
    ensures Sum(n, Elementwise(q'', k)) == a * Sum(n, Elementwise(q, k)) + b * Sum(n, Elementwise(q', k))
  {
    hide Elementwise, Combined;
    if n > 0 {
      PartialDotLinear(q, q', q'', a, b, k, n - 1);
      ElementLinear(q, q', q'', a, b, k, n - 1);
      Distributes(a, Sum(n - 1, Elementwise(q, k)), Elementwise(q, k)(n - 1));
      Distributes(b, Sum(n - 1, Elementwise(q', k)), Elementwise(q', k)(n - 1));
    }
  }

  lemma Distributes(a: real, x: real, y: real)
    ensures a * (x + y) == a * x + a * y
  {
  }

  lemma DotLinear(q: seq<real>, q': seq<real>, q'': seq<real>, a: real, b: real, k: Term)
    requires Combined(q, q', q'', a, b)
    ensures Sum(|q''|, Elementwise(q'', k)) == a * Sum(|q|, Elementwise(q, k)) + b * Sum(|q'|, Elementwise(q', k))
  {
    hide Elementwise, Sum, Combined;
    SameLength(q, q', q'', a, b);
    PartialDotLinear(q, q', q'', a, b, k, |q|);
  }

  lemma SameLength(q: seq<real>, q': seq<real>, q'': seq<real>, a: real, b: real)
    requires Combined(q, q', q'', a, b)
    ensures |q| == |q'| == |q''|
  {
  }

  lemma ElementLinear(q: seq<real>, q': seq<real>, q'': seq<real>, a: real, b: real, k: Term, d: nat)
    requires Combined(q, q', q'', a, b) && d < |q|
    ensures Elementwise(q'', k)(d) == a * Elementwise(q, k)(d) + b * Elementwise(q', k)(d)
  {
    TermLinear(a, q[d], b, q'[d], k(d));
  }

  lemma TermLinear(a: real, x: real, b: real, y: real, k: real)
    ensures (a * x + b * y) * k == a * (x * k) + b * (y * k)
  {
  }

  lemma {:induction false} SumSingle(n: nat, f: Term, d: nat)
    requires d < n && (forall i :: 0 <= i < n && i != d ==> f(i) == 0.0)
    ensures Sum(n, f) == f(d)
  {
    if d == n - 1 {
      SumZero(d, f);
    } else {
      SumSingle(n - 1, f, d);
    }
  }

  lemma DotUnit(q: seq<real>, d: nat, k: Term)
    requires IsUnit(q, d)
    ensures Sum(|q|, Elementwise(q, k)) == k(d)
  {
    SumSingle(|q|, Elementwise(q, k), d);
  }

  /** The scores are linear in the query. */
  lemma ScoreLinear(l: Layout, s: Cached, head: nat, q: seq<real>, q': seq<real>, q'': seq<real>, a: real, b: real,
                    scale: real, row: nat, t: nat)
    requires |s.ks| == |s.vs| && t < |s.ks| && Combined(q, q', q'', a, b)
    ensures Given(l, s, head, q'', scale, row).xs[t] ==
            a * Given(l, s, head, q, scale, row).xs[t] + b * Given(l, s, head, q', scale, row).xs[t]
  {
    hide Sum, Elementwise;
    var k := HeadOf(l, s.ks[t], head);
    DotLinear(q, q', q'', a, b, k);
    Rescale(scale, a, Sum(|q|, Elementwise(q, k)), b, Sum(|q'|, Elementwise(q', k)));
  }

  lemma Rescale(scale: real, a: real, x: real, b: real, y: real)
    ensures scale * (a * x + b * y) == a * (scale * x) + b * (scale * y)
  {
  }

  /** For the unit vector of element `d` the score is that element of the key's head, scaled. */
  lemma ScoreUnit(l: Layout, s: Cached, head: nat, q: seq<real>, d: nat, scale: real, row: nat, t: nat)
    requires |s.ks| == |s.vs| && t < |s.ks| && IsUnit(q, d) && head < l.heads && d < l.headSize
    requires |s.ks[t]| == l.heads * l.headSize
    ensures 0 <= head * l.headSize + d < |s.ks[t]|
    ensures Given(l, s, head, q, scale, row).xs[t] == scale * s.ks[t][head * l.headSize + d]
  {
    hide Sum, Elementwise;
    DotUnit(q, d, HeadOf(l, s.ks[t], head));
    ElementBelow(l, head, d);
  }

  /** The same of the score as it is read from the cache. */
  lemma ReadLinear(l: Layout, v: nat, kc: seq<real>, table: Table, head: nat, q: seq<real>, q': seq<real>,
                   q'': seq<real>, a: real, b: real, scale: real, t: int)
    requires l.Valid() && v > 0 && Combined(q, q', q'', a, b)
    ensures ScoreRead(l, v, kc, table, head, q'', scale)(t) ==
            a * ScoreRead(l, v, kc, table, head, q, scale)(t) + b * ScoreRead(l, v, kc, table, head, q', scale)(t)
  {
    hide Sum, Elementwise, KeyRead;
    var k := KeyTerm(l, v, kc, table, head, t);
    DotLinear(q, q', q'', a, b, k);
    Rescale(scale, a, Sum(|q|, Elementwise(q, k)), b, Sum(|q'|, Elementwise(q', k)));
  }

  /** For a unit vector it is one cell of the cache, scaled: that of the position's slot for this head and element. */
  lemma ReadUnit(l: Layout, v: nat, kc: seq<real>, vc: seq<real>, s: Cached, head: nat, q: seq<real>, d: nat,
                 scale: real, t: nat)
    requires Stored(l, s, kc, vc) && l.headSize % l.x == 0 && v > 0 && l.x % v == 0
    requires head < l.heads && t < |s.ks| && d < l.headSize && IsUnit(q, d)
    ensures 0 <= head * l.headSize + d < |s.ks[t]|
    ensures ScoreRead(l, v, kc, s.table, head, q, scale)(t) == scale * s.ks[t][head * l.headSize + d]
  {
    hide Sum, Elementwise, KeyRead, ValueRead, StoredAt;
    DotUnit(q, d, KeyTerm(l, v, kc, s.table, head, t));
    ReadsWhatIsStored(l, v, s, kc, vc, head, t, d);
  }

  /** The values are the elements of one row of the head. */
  lemma GivenValue(l: Layout, s: Cached, head: nat, q: seq<real>, scale: real, row: nat, t: nat)
    requires |s.ks| == |s.vs| && t < |s.vs| && head < l.heads && row < l.headSize
    requires |s.vs[t]| == l.heads * l.headSize
    ensures 0 <= head * l.headSize + row < |s.vs[t]|
    ensures Given(l, s, head, q, scale, row).vs[t] == s.vs[t][head * l.headSize + row]
  {
    hide Sum, Elementwise;
    ElementBelow(l, head, row);
    assert HeadOf(l, s.vs[t], head)(row) == s.vs[t][head * l.headSize + row];
  }

  // ----- Softmax

  function Exps(exp: real -> real, xs: seq<real>, m: real): Term {
    t => if 0 <= t < |xs| then exp(xs[t] - m) else 0.0
  }

  function ExpsOf(exp: real -> real, xs: seq<real>, vs: seq<real>, m: real): Term {
    t => if 0 <= t < |xs| && t < |vs| then exp(xs[t] - m) * vs[t] else 0.0
  }

  lemma {:induction false} ExpSumIs(exp: real -> real, xs: seq<real>, m: real)
    ensures ExpSum(exp, xs, m) == Sum(|xs|, Exps(exp, xs, m))
    decreases |xs|
  {
    if xs != [] {
      var n := |xs| - 1;
      ExpSumIs(exp, xs[..n], m);
      SumCongruence(n, Exps(exp, xs, m), Exps(exp, xs[..n], m));
    }
  }

  lemma {:induction false} WeightedSumIs(exp: real -> real, xs: seq<real>, vs: seq<real>, m: real)
    requires |xs| == |vs|
    ensures WeightedSum(exp, xs, vs, m) == Sum(|xs|, ExpsOf(exp, xs, vs, m))
    decreases |xs|
  {
    if xs != [] {
      var n := |xs| - 1;
      WeightedSumIs(exp, xs[..n], vs[..n], m);
      SumCongruence(n, ExpsOf(exp, xs, vs, m), ExpsOf(exp, xs[..n], vs[..n], m));
    }
  }

  /** The softmax is the one vector of weights proportional to `exp(x)` that adds up to one, applied to the values. */
  lemma SoftmaxIs(exp: real -> real, xs: seq<real>, vs: seq<real>)
    requires IsExp(exp) && xs != [] && |xs| == |vs|
    ensures Sum(|xs|, t => if 0 <= t < |xs| then exp(xs[t]) else 0.0) > 0.0
    ensures Softmax(exp, xs, vs) * Sum(|xs|, t => if 0 <= t < |xs| then exp(xs[t]) else 0.0) ==
            Sum(|xs|, t => if 0 <= t < |xs| && t < |vs| then exp(xs[t]) * vs[t] else 0.0)
  {
    hide IsExp, Sum;
    var f: Term, g: Term := t => if 0 <= t < |xs| then exp(xs[t]) else 0.0,
                            t => if 0 <= t < |xs| && t < |vs| then exp(xs[t]) * vs[t] else 0.0;
    ExpSumIs(exp, xs, 0.0);
    WeightedSumIs(exp, xs, vs, 0.0);
    SumCongruence(|xs|, Exps(exp, xs, 0.0), f);
    SumCongruence(|xs|, ExpsOf(exp, xs, vs, 0.0), g);
    ExpSumPositive(exp, xs, 0.0);
    TimesQuotient(WeightedSum(exp, xs, vs, 0.0), ExpSum(exp, xs, 0.0));
  }

  lemma TimesQuotient(w: real, e: real)
    requires e != 0.0
    ensures w / e * e == w
  {
  }

  // ----- The constant added to the sums

  /** One partition: its maximum, the sum relative to it, and a row divided by that sum and the constant. */
  lemma AttendIs(exp: real -> real, eps: real, p: Part)
    requires IsExp(exp) && eps >= 0.0 && p.Valid()
    ensures var r := Attend(exp, eps, p);
            && r.maxLogit in p.xs && (forall x :: x in p.xs ==> x <= r.maxLogit)
            && r.expSum == Sum(|p.xs|, Exps(exp, p.xs, r.maxLogit))
            && r.out * (r.expSum + eps) == Sum(|p.xs|, ExpsOf(exp, p.xs, p.vs, r.maxLogit))
  {
    hide IsExp, Sum;
    var m := Max(p.xs);
    MaxIsMember(p.xs);
    ExpSumIs(exp, p.xs, m);
    WeightedSumIs(exp, p.xs, p.vs, m);
    ExpSumPositive(exp, p.xs, m);
    TimesQuotient(WeightedSum(exp, p.xs, p.vs, m), ExpSum(exp, p.xs, m) + eps);
  }

  /** The sums of the partitions relative to `m`, and the rows weighted by them. */
  function Shares(exp: real -> real, rs: seq<Partial>, m: real): Term {
    i => if 0 <= i < |rs| then rs[i].expSum * exp(rs[i].maxLogit - m) else 0.0
  }

  function SharesOf(exp: real -> real, rs: seq<Partial>, m: real): Term {
    i => if 0 <= i < |rs| then rs[i].out * (rs[i].expSum * exp(rs[i].maxLogit - m)) else 0.0
  }

  lemma {:induction false} RescaledIs(exp: real -> real, rs: seq<Partial>, m: real)
    ensures RescaledSum(exp, rs, m) == Sum(|rs|, Shares(exp, rs, m))
    ensures RescaledOut(exp, rs, m) == Sum(|rs|, SharesOf(exp, rs, m))
    decreases |rs|
  {
    if rs != [] {
      var n := |rs| - 1;
      RescaledIs(exp, rs[..n], m);
      SumCongruence(n, Shares(exp, rs, m), Shares(exp, rs[..n], m));
      SumCongruence(n, SharesOf(exp, rs, m), SharesOf(exp, rs[..n], m));
    }
  }

  /** Several partitions: their rows weighted by their shares, divided by the sum of the shares and the constant. */
  lemma MergeIs(exp: real -> real, eps: real, rs: seq<Partial>) returns (m: real)
    requires IsExp(exp) && eps >= 0.0 && |rs| > 1 && (forall r :: r in rs ==> r.expSum > 0.0)
    ensures exists r :: r in rs && r.maxLogit == m
    ensures forall r :: r in rs ==> r.maxLogit <= m
    ensures Merge(exp, eps, rs) * (Sum(|rs|, Shares(exp, rs, m)) + eps) == Sum(|rs|, SharesOf(exp, rs, m))
  {
    hide IsExp, Sum;
    m := Max(MaxLogits(rs));
    MaxIsMember(MaxLogits(rs));
    var i :| 0 <= i < |rs| && MaxLogits(rs)[i] == m;
    assert rs[i] in rs;
    forall r | r in rs ensures r.maxLogit <= m {
      var j :| 0 <= j < |rs| && rs[j] == r;
      assert MaxLogits(rs)[j] in MaxLogits(rs);
    }
    RescaledIs(exp, rs, m);
    RescaledSumPositive(exp, rs, m);
    TimesQuotient(RescaledOut(exp, rs, m), RescaledSum(exp, rs, m) + eps);
  }
}
