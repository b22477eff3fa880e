/**
 The softmax of kernels/attention_kernel.cu over the reals: one pass per partition with its own maximum and sum, and a
 second kernel that merges the partitions. The exponential is any function with the laws of one.
 */
module Attention {
  ghost predicate IsExp(exp: real -> real) {
    && (forall a, b :: exp(a + b) == exp(a) * exp(b))
    && exp(0.0) == 1.0
    && (forall a :: exp(a) > 0.0)
  }

  function Max(xs: seq<real>): real
    requires xs != []
  {
    if |xs| == 1 then xs[0]
    else var m := Max(xs[..|xs| - 1]); if xs[|xs| - 1] > m then xs[|xs| - 1] else m
  }

  /** Sum of `exp(x - m)`. */
  function ExpSum(exp: real -> real, xs: seq<real>, m: real): real {
    if xs == [] then 0.0 else ExpSum(exp, xs[..|xs| - 1], m) + exp(xs[|xs| - 1] - m)
  }

  /** Sum of `exp(x - m) * v`. */
  function WeightedSum(exp: real -> real, xs: seq<real>, vs: seq<real>, m: real): real
    requires |xs| == |vs|
  {
    if xs == [] then 0.0
    else WeightedSum(exp, xs[..|xs| - 1], vs[..|xs| - 1], m) + exp(xs[|xs| - 1] - m) * vs[|xs| - 1]
  }

  /** The softmax-weighted sum of one row of values. */
  function Softmax(exp: real -> real, xs: seq<real>, vs: seq<real>): real
    requires |xs| == |vs|
  {
    var e := ExpSum(exp, xs, 0.0);
    if e == 0.0 then 0.0 else WeightedSum(exp, xs, vs, 0.0) / e
  }

  /** A stretch of the context: logits and one row of values. */
  datatype Part = Part(xs: seq<real>, vs: seq<real>) {
    predicate Valid() {
      xs != [] && |xs| == |vs|
    }
  }

  predicate AllValid(parts: seq<Part>) {
    forall p :: p in parts ==> p.Valid()
  }

  /** What a thread block leaves for the merging kernel. */
  datatype Partial = Partial(maxLogit: real, expSum: real, out: real)

  /** The result of `paged_attention_kernel` for one partition; `eps` is the constant added to the sum. */
  function Attend(exp: real -> real, eps: real, p: Part): Partial
    requires p.Valid()
  {
    var m := Max(p.xs);
    var e := ExpSum(exp, p.xs, m);
    Partial(m, e, if e + eps == 0.0 then 0.0 else WeightedSum(exp, p.xs, p.vs, m) / (e + eps))
  }

  function AttendAll(exp: real -> real, eps: real, parts: seq<Part>): seq<Partial>
    requires AllValid(parts)
  {
    seq(|parts|, i requires 0 <= i < |parts| => Attend(exp, eps, parts[i]))
  }

  function MaxLogits(rs: seq<Partial>): seq<real> {
    seq(|rs|, i requires 0 <= i < |rs| => rs[i].maxLogit)
  }

  /** Sum of the partition sums, rescaled to the common maximum `m`. */
  function RescaledSum(exp: real -> real, rs: seq<Partial>, m: real): real {
    if rs == [] then 0.0
    else var r := rs[|rs| - 1]; RescaledSum(exp, rs[..|rs| - 1], m) + r.expSum * exp(r.maxLogit - m)
  }

  function RescaledOut(exp: real -> real, rs: seq<Partial>, m: real): real {
    if rs == [] then 0.0
    else var r := rs[|rs| - 1]; RescaledOut(exp, rs[..|rs| - 1], m) + r.out * (r.expSum * exp(r.maxLogit - m))
  }

  /** `paged_attention_v2_reduce_kernel`; a single partition is passed through. */
  function Merge(exp: real -> real, eps: real, rs: seq<Partial>): real
    requires rs != []
  {
    if |rs| == 1 then rs[0].out
    else
      var m := Max(MaxLogits(rs));
      var g := RescaledSum(exp, rs, m);
      if g + eps == 0.0 then 0.0 else RescaledOut(exp, rs, m) / (g + eps)
  }

  /** All parts in order. */
  function Whole(parts: seq<Part>): Part {
    if parts == [] then Part([], [])
    else var w := Whole(parts[..|parts| - 1]); var p := parts[|parts| - 1]; Part(w.xs + p.xs, w.vs + p.vs)
  }

  // ----- Instances of the laws

  lemma ExpAdd(exp: real -> real, a: real, b: real)
    requires IsExp(exp)
    ensures exp(a + b) == exp(a) * exp(b)
  {
  }

  lemma ExpPositive(exp: real -> real, a: real)
    requires IsExp(exp)
    ensures exp(a) > 0.0 && exp(0.0) == 1.0
  {
  }

  // ----- Sums

  lemma {:induction false} ExpSumShift(exp: real -> real, xs: seq<real>, m: real, m': real)
    requires IsExp(exp)
    ensures ExpSum(exp, xs, m') == ExpSum(exp, xs, m) * exp(m - m')
    decreases |xs|
  {
    hide IsExp;
    if xs != [] {
      var n := |xs| - 1;
      ExpSumShift(exp, xs[..n], m, m');
      Split(exp, xs[n], m, m');
      Distribute(ExpSum(exp, xs[..n], m), exp(xs[n] - m), exp(m - m'));
    }
  }

  lemma Split(exp: real -> real, x: real, m: real, m': real)
    requires IsExp(exp)
    ensures exp(x - m') == exp(x - m) * exp(m - m')
  {
    hide IsExp;
    assert x - m' == (x - m) + (m - m');
    ExpAdd(exp, x - m, m - m');
  }

  lemma Distribute(a: real, b: real, c: real)
    ensures (a + b) * c == a * c + b * c
  {
  }

  lemma {:induction false} WeightedSumShift(exp: real -> real, xs: seq<real>, vs: seq<real>, m: real, m': real)
    requires IsExp(exp) && |xs| == |vs|
    ensures WeightedSum(exp, xs, vs, m') == WeightedSum(exp, xs, vs, m) * exp(m - m')
    decreases |xs|
  {
    hide IsExp;
    if xs != [] {
      var n := |xs| - 1;
      WeightedSumShift(exp, xs[..n], vs[..n], m, m');
      Split(exp, xs[n], m, m');
      var a, f, v := exp(xs[n] - m), exp(m - m'), vs[n];
      assert a * f * v == a * v * f by { Swap(a, f, v); }
      Distribute(WeightedSum(exp, xs[..n], vs[..n], m), a * v, f);
    }
  }

  lemma Swap(a: real, b: real, c: real)
    ensures a * b * c == a * c * b
  {
  }

  lemma {:induction false} ExpSumAppend(exp: real -> real, xs: seq<real>, ys: seq<real>, m: real)
    ensures ExpSum(exp, xs + ys, m) == ExpSum(exp, xs, m) + ExpSum(exp, ys, m)
    decreases |ys|
  {
    if ys == [] {
      assert xs + ys == xs;
    } else {
      var n := |ys| - 1;
      assert (xs + ys)[..|xs + ys| - 1] == xs + ys[..n];
      ExpSumAppend(exp, xs, ys[..n], m);
    }
  }

  lemma {:induction false} WeightedSumAppend(exp: real -> real, xs: seq<real>, vs: seq<real>, ys: seq<real>,
                                             ws: seq<real>, m: real)
    requires |xs| == |vs| && |ys| == |ws|
    ensures WeightedSum(exp, xs + ys, vs + ws, m) == WeightedSum(exp, xs, vs, m) + WeightedSum(exp, ys, ws, m)
    decreases |ys|
  {
    if ys == [] {
      assert xs + ys == xs && vs + ws == vs;
    } else {
      var n := |ys| - 1;
      assert (xs + ys)[..|xs + ys| - 1] == xs + ys[..n];
      assert (vs + ws)[..|xs + ys| - 1] == vs + ws[..n];
      WeightedSumAppend(exp, xs, vs, ys[..n], ws[..n], m);
    }
  }

  lemma {:induction false} ExpSumPositive(exp: real -> real, xs: seq<real>, m: real)
    requires IsExp(exp)
    ensures ExpSum(exp, xs, m) >= 0.0 && (xs != [] ==> ExpSum(exp, xs, m) > 0.0)
    decreases |xs|
  {
    hide IsExp;
    if xs != [] {
      ExpSumPositive(exp, xs[..|xs| - 1], m);
      ExpPositive(exp, xs[|xs| - 1] - m);
    }
  }

  lemma {:induction false} MaxIsMember(xs: seq<real>)
    requires xs != []
    ensures Max(xs) in xs && (forall x :: x in xs ==> x <= Max(xs))
    decreases |xs|
  {
    if |xs| > 1 {
      var n := |xs| - 1;
      assert xs == xs[..n] + [xs[n]];
      MaxIsMember(xs[..n]);
    }
  }

  /** The maximum contributes one, so the sum relative to a member is at least one. */
  lemma {:induction false} ExpSumAtLeastOne(exp: real -> real, xs: seq<real>, m: real)
    requires IsExp(exp) && m in xs
    ensures ExpSum(exp, xs, m) >= 1.0
    decreases |xs|
  {
    hide IsExp;
    var n := |xs| - 1;
    assert xs == xs[..n] + [xs[n]];
    ExpSumPositive(exp, xs[..n], m);
    ExpPositive(exp, xs[n] - m);
    if xs[n] == m {
      assert xs[n] - m == 0.0;
    } else {
      ExpSumAtLeastOne(exp, xs[..n], m);
    }
  }

  lemma {:induction false} WeightedSumNonnegative(exp: real -> real, xs: seq<real>, vs: seq<real>, m: real)
    requires IsExp(exp) && |xs| == |vs| && Nonnegative(vs)
    ensures WeightedSum(exp, xs, vs, m) >= 0.0
    decreases |xs|
  {
    hide IsExp;
    if xs != [] {
      var n := |xs| - 1;
      assert forall v :: v in vs[..n] ==> v in vs;
      assert vs[n] in vs;
      ExpPositive(exp, xs[n] - m);
      WeightedSumNonnegative(exp, xs[..n], vs[..n], m);
      TimesNonnegative(exp(xs[n] - m), vs[n]);
    }
  }

  lemma TimesNonnegative(a: real, b: real)
    requires a >= 0.0 && b >= 0.0
    ensures a * b >= 0.0
  {
  }

  lemma TimesLess(a: real, b: real, c: real)
    requires a <= b && c >= 0.0
    ensures a * c <= b * c
  {
    TimesNonnegative(b - a, c);
    assert (b - a) * c == b * c - a * c;
  }

  // ----- The softmax does not depend on the reference point

  lemma SoftmaxAt(exp: real -> real, xs: seq<real>, vs: seq<real>, m: real)
    requires IsExp(exp) && xs != [] && |xs| == |vs|
    ensures ExpSum(exp, xs, m) > 0.0
    ensures Softmax(exp, xs, vs) == WeightedSum(exp, xs, vs, m) / ExpSum(exp, xs, m)
  {
    hide IsExp;
    ExpSumPositive(exp, xs, m);
    ExpSumPositive(exp, xs, 0.0);
    ExpSumShift(exp, xs, m, 0.0);
    WeightedSumShift(exp, xs, vs, m, 0.0);
    ExpPositive(exp, m - 0.0);
    CancelFactor(WeightedSum(exp, xs, vs, m), ExpSum(exp, xs, m), exp(m - 0.0));
  }

  lemma CancelFactor(w: real, e: real, f: real)
    requires e > 0.0 && f > 0.0
    ensures e * f > 0.0 && (w * f) / (e * f) == w / e
  {
    assert e * f > 0.0;
    var q := w / e;
    assert w == q * e;
    assert w * f == q * e * f;
    assert q * e * f == q * (e * f);
    DivideExact(w * f, e * f, q);
  }

  lemma DivideExact(a: real, b: real, q: real)
    requires b != 0.0 && a == q * b
    ensures a / b == q
  {
  }

  // ----- Merging partitions

  lemma {:induction false} WholeValid(parts: seq<Part>)
    requires AllValid(parts)
    ensures |Whole(parts).xs| == |Whole(parts).vs| && (parts != [] ==> Whole(parts).xs != [])
    decreases |parts|
  {
    if parts != [] {
      var n := |parts| - 1;
      assert parts[n] in parts && parts[n].Valid();
      WholeValid(parts[..n]);
    }
  }

  /** Taking off the last partition. */
  lemma LastPart(exp: real -> real, eps: real, parts: seq<Part>)
    requires AllValid(parts) && parts != []
    ensures var n := |parts| - 1;
            && AllValid(parts[..n]) && parts[n].Valid()
            && |AttendAll(exp, eps, parts)| == n + 1
            && AttendAll(exp, eps, parts)[..n] == AttendAll(exp, eps, parts[..n])
            && AttendAll(exp, eps, parts)[n] == Attend(exp, eps, parts[n])
            && Whole(parts) == Part(Whole(parts[..n]).xs + parts[n].xs, Whole(parts[..n]).vs + parts[n].vs)
  {
    hide Attend;
    var n := |parts| - 1;
    assert parts[n] in parts;
    assert forall q :: q in parts[..n] ==> q in parts;
  }

  /** Rescaled partition sums add up to the sum over the whole context. */
  lemma {:induction false} RescaledSumWhole(exp: real -> real, eps: real, parts: seq<Part>, m: real)
    requires IsExp(exp) && AllValid(parts)
    ensures RescaledSum(exp, AttendAll(exp, eps, parts), m) == ExpSum(exp, Whole(parts).xs, m)
    decreases |parts|
  {
    hide IsExp, AttendAll, Attend, Whole, AllValid, ExpSum;
    if parts == [] {
      NoParts(exp, eps, m);
    } else {
      var n := |parts| - 1;
      var p, rest := parts[n], parts[..n];
      LastPart(exp, eps, parts);
      RescaledSumWhole(exp, eps, rest, m);
      PartSum(exp, eps, p, m);
      ExpSumAppend(exp, Whole(rest).xs, p.xs, m);
    }
  }

  lemma NoParts(exp: real -> real, eps: real, m: real)
    ensures AttendAll(exp, eps, []) == [] && Whole([]) == Part([], [])
    ensures ExpSum(exp, [], m) == 0.0 && WeightedSum(exp, [], [], m) == 0.0
  {
  }

  lemma PartSum(exp: real -> real, eps: real, p: Part, m: real)
    requires IsExp(exp) && p.Valid()
    ensures var r := Attend(exp, eps, p);
            r.expSum * exp(r.maxLogit - m) == ExpSum(exp, p.xs, m)
  {
    hide IsExp, ExpSum, WeightedSum, Max;
    ExpSumShift(exp, p.xs, Max(p.xs), m);
  }

  /** The factor by which `eps` shrinks a partition with sum `e`. */
  function Shrink(e: real, eps: real): real {
    if e + eps == 0.0 then 0.0 else e / (e + eps)
  }

  lemma ShrinkBounds(e: real, eps: real)
    requires e >= 1.0 && eps >= 0.0
    ensures 1.0 / (1.0 + eps) <= Shrink(e, eps) <= 1.0
    ensures eps == 0.0 ==> Shrink(e, eps) == 1.0
  {
    var d, k := e + eps, 1.0 / (1.0 + eps);
    var f := Shrink(e, eps);
    assert f * d == e;
    DivideLess(f, 1.0, d);
    assert k * (1.0 + eps) == 1.0;
    assert k * d <= e by {
      TimesLess(1.0, e, eps);
      assert e * (1.0 + eps) == e + e * eps;
      PositiveInverse(1.0 + eps);
      TimesLess(d, e * (1.0 + eps), k);
      assert e * (1.0 + eps) * k == e * (k * (1.0 + eps)) by { Reassociate(e, 1.0 + eps, k); }
    }
    DivideLess(k, f, d);
  }

  lemma PositiveInverse(d: real)
    requires d > 0.0
    ensures 1.0 / d > 0.0
  {
  }

  lemma Reassociate(a: real, b: real, c: real)
    ensures a * b * c == a * (c * b)
  {
  }

  /** One rescaled partition output is its share of the whole sum, shrunk by its own `eps`. */
  lemma RescaledPart(exp: real -> real, eps: real, p: Part, m: real)
    requires IsExp(exp) && p.Valid() && eps >= 0.0
    ensures var r := Attend(exp, eps, p);
            r.out * (r.expSum * exp(r.maxLogit - m)) == WeightedSum(exp, p.xs, p.vs, m) * Shrink(r.expSum, eps)
    ensures Attend(exp, eps, p).expSum >= 1.0
  {
    hide IsExp, ExpSum, WeightedSum, Max;
    var r := Attend(exp, eps, p);
    MaxIsMember(p.xs);
    ExpSumAtLeastOne(exp, p.xs, r.maxLogit);
    var w, e, f := WeightedSum(exp, p.xs, p.vs, r.maxLogit), r.expSum, exp(r.maxLogit - m);
    WeightedSumShift(exp, p.xs, p.vs, r.maxLogit, m);
    OutTimesSum(w, e, eps, f);
  }

  lemma OutTimesSum(w: real, e: real, eps: real, f: real)
    requires e >= 1.0 && eps >= 0.0
    ensures w / (e + eps) * (e * f) == w * f * (e / (e + eps))
  {
    var d := e + eps;
    var q, s := w / d, e / d;
    assert w == q * d && e == s * d;
    assert q * (e * f) == q * (s * d * f);
    assert w * f * s == q * d * f * s;
    assert q * (s * d * f) == q * d * f * s by { Reorder(q, s, d, f); }
  }

  lemma Reorder(q: real, s: real, d: real, f: real)
    ensures q * (s * d * f) == q * d * f * s
  {
    assert s * d * f == d * f * s;
    assert q * (d * f * s) == q * (d * f) * s;
    assert q * (d * f) == q * d * f;
  }

  ghost predicate Nonnegative(vs: seq<real>) {
    forall v :: v in vs ==> v >= 0.0
  }

  ghost predicate NonnegativeValues(parts: seq<Part>) {
    forall p :: p in parts ==> Nonnegative(p.vs)
  }

  /** The merged output relates to the whole weighted sum: equal without `eps`, within a factor otherwise. */
  ghost predicate OutBounds(total: real, merged: real, eps: real, nonnegative: bool) {
    && (eps == 0.0 ==> merged == total)
    && (nonnegative ==> eps >= 0.0 && total * (1.0 / (1.0 + eps)) <= merged <= total && total >= 0.0)
  }

  lemma OutBoundsAdd(total: real, merged: real, eps: real, nonnegative: bool, w: real, f: real, total': real,
                     merged': real)
    requires total' == total + w && merged' == merged + w * f
    requires eps >= 0.0 && OutBounds(total, merged, eps, nonnegative) && (nonnegative ==> w >= 0.0)
    requires 1.0 / (1.0 + eps) <= f <= 1.0 && (eps == 0.0 ==> f == 1.0)
    ensures OutBounds(total', merged', eps, nonnegative)
  {
    var k := 1.0 / (1.0 + eps);
    if nonnegative {
      TimesLess(k, f, w);
      TimesLess(f, 1.0, w);
      Distribute(total, w, k);
      Commute(w, f);
      Commute(w, k);
      assert total' * k == total * k + w * k;
      assert total' * k <= merged' <= total';
    }
  }

  lemma Commute(a: real, b: real)
    ensures a * b == b * a
  {
  }

  lemma {:induction false} RescaledOutBounds(exp: real -> real, eps: real, parts: seq<Part>, m: real)
    requires IsExp(exp) && AllValid(parts) && eps >= 0.0
    ensures |Whole(parts).xs| == |Whole(parts).vs|
    ensures OutBounds(WeightedSum(exp, Whole(parts).xs, Whole(parts).vs, m),
                      RescaledOut(exp, AttendAll(exp, eps, parts), m),
                      eps, NonnegativeValues(parts))
    decreases |parts|
  {
    hide IsExp, AttendAll, Attend, Whole, AllValid, WeightedSum, OutBounds, Shrink, NonnegativeValues;
    WholeValid(parts);
    if parts == [] {
      NoParts(exp, eps, m);
      assert OutBounds(0.0, 0.0, eps, NonnegativeValues(parts)) by { ZeroBounds(eps, NonnegativeValues(parts)); }
    } else {
      var n := |parts| - 1;
      var p, rest := parts[n], parts[..n];
      LastPart(exp, eps, parts);
      WholeValid(rest);
      RescaledOutBounds(exp, eps, rest, m);
      WeightedSumAppend(exp, Whole(rest).xs, Whole(rest).vs, p.xs, p.vs, m);
      RescaledPart(exp, eps, p, m);
      var e := Attend(exp, eps, p).expSum;
      ShrinkBounds(e, eps);
      var w := WeightedSum(exp, p.xs, p.vs, m);
      var total, merged := WeightedSum(exp, Whole(rest).xs, Whole(rest).vs, m),
                           RescaledOut(exp, AttendAll(exp, eps, rest), m);
      if NonnegativeValues(parts) {
        LastNonnegative(parts);
        WeightedSumNonnegative(exp, p.xs, p.vs, m);
      }
      WeakerBounds(total, merged, eps, NonnegativeValues(rest), NonnegativeValues(parts));
      OutBoundsAdd(total, merged, eps, NonnegativeValues(parts), w, Shrink(e, eps),
                   WeightedSum(exp, Whole(parts).xs, Whole(parts).vs, m),
                   RescaledOut(exp, AttendAll(exp, eps, parts), m));
    }
  }

  lemma ZeroBounds(eps: real, nonnegative: bool)
    requires eps >= 0.0
    ensures OutBounds(0.0, 0.0, eps, nonnegative)
  {
  }

  lemma WeakerBounds(total: real, merged: real, eps: real, nonnegative: bool, fewer: bool)
    requires OutBounds(total, merged, eps, nonnegative) && (fewer ==> nonnegative)
    ensures OutBounds(total, merged, eps, fewer)
  {
  }

  lemma LastNonnegative(parts: seq<Part>)
    requires NonnegativeValues(parts) && parts != []
    ensures NonnegativeValues(parts[..|parts| - 1]) && Nonnegative(parts[|parts| - 1].vs)
  {
    assert parts[|parts| - 1] in parts;
  }

  /** Some partition attains the common maximum, so the merged sum is at least one. */
  lemma MergedSumAtLeastOne(exp: real -> real, eps: real, parts: seq<Part>)
    requires IsExp(exp) && AllValid(parts) && parts != []
    ensures MaxLogits(AttendAll(exp, eps, parts)) != []
    ensures ExpSum(exp, Whole(parts).xs, Max(MaxLogits(AttendAll(exp, eps, parts)))) >= 1.0
  {
    hide IsExp;
    var ms := MaxLogits(AttendAll(exp, eps, parts));
    MaxIsMember(ms);
    var m := Max(ms);
    var i :| 0 <= i < |ms| && ms[i] == m;
    assert parts[i] in parts && parts[i].Valid();
    MaxIsMember(parts[i].xs);
    PartInWhole(parts, i, m);
    ExpSumAtLeastOne(exp, Whole(parts).xs, m);
  }

  lemma {:induction false} PartInWhole(parts: seq<Part>, i: nat, x: real)
    requires i < |parts| && x in parts[i].xs
    ensures x in Whole(parts).xs
    decreases |parts|
  {
    var n := |parts| - 1;
    if i < n {
      PartInWhole(parts[..n], i, x);
    }
  }

  /** Splitting the context into partitions and merging them is exact when nothing is added to the sums. */
  lemma MergeExact(exp: real -> real, parts: seq<Part>)
    requires IsExp(exp) && AllValid(parts) && parts != []
    ensures |Whole(parts).xs| == |Whole(parts).vs|
    ensures Merge(exp, 0.0, AttendAll(exp, 0.0, parts)) == Softmax(exp, Whole(parts).xs, Whole(parts).vs)
  {
    hide IsExp;
    WholeValid(parts);
    var rs := AttendAll(exp, 0.0, parts);
    var w := Whole(parts);
    if |parts| == 1 {
      SinglePart(parts);
      SoftmaxAt(exp, w.xs, w.vs, Max(parts[0].xs));
    } else {
      MergedSumAtLeastOne(exp, 0.0, parts);
      var m := Max(MaxLogits(rs));
      RescaledSumWhole(exp, 0.0, parts, m);
      RescaledOutBounds(exp, 0.0, parts, m);
      SoftmaxAt(exp, w.xs, w.vs, m);
    }
  }

  lemma SinglePart(parts: seq<Part>)
    requires |parts| == 1
    ensures Whole(parts) == parts[0]
  {
    assert parts[..0] == [];
    assert [] + parts[0].xs == parts[0].xs && [] + parts[0].vs == parts[0].vs;
  }

  /**
   With `eps` added to every sum and nonnegative values, the merged result is at most the exact one and at least the
   exact one divided by `(1 + eps)` squared, for any split of the context.
   */
  lemma MergeBounds(exp: real -> real, eps: real, parts: seq<Part>)
    requires IsExp(exp) && AllValid(parts) && parts != [] && eps >= 0.0 && NonnegativeValues(parts)
    ensures |Whole(parts).xs| == |Whole(parts).vs|
    ensures var exact, merged := Softmax(exp, Whole(parts).xs, Whole(parts).vs),
                                 Merge(exp, eps, AttendAll(exp, eps, parts));
            exact / ((1.0 + eps) * (1.0 + eps)) <= merged <= exact
  {
    hide IsExp, Softmax, Merge, AttendAll, Whole, NonnegativeValues, AllValid;
    WholeValid(parts);
    var w := Whole(parts);
    if |parts| == 1 {
      OneBounds(exp, eps, parts);
    } else {
      ManyBounds(exp, eps, parts);
    }
    SquareInverse(Softmax(exp, w.xs, w.vs), eps);
  }

  lemma InverseBounds(eps: real)
    requires eps >= 0.0
    ensures 0.0 < 1.0 / (1.0 + eps) <= 1.0
  {
    PositiveInverse(1.0 + eps);
    DivideLess(1.0 / (1.0 + eps), 1.0, 1.0 + eps);
  }

  lemma OneBounds(exp: real -> real, eps: real, parts: seq<Part>)
    requires IsExp(exp) && AllValid(parts) && |parts| == 1 && eps >= 0.0 && NonnegativeValues(parts)
    ensures |Whole(parts).xs| == |Whole(parts).vs|
    ensures var exact, merged := Softmax(exp, Whole(parts).xs, Whole(parts).vs),
                                 Merge(exp, eps, AttendAll(exp, eps, parts));
            exact * (1.0 / (1.0 + eps)) * (1.0 / (1.0 + eps)) <= merged <= exact
  {
    hide IsExp, ExpSum, WeightedSum, Softmax, Max;
    SinglePart(parts);
    assert parts[0] in parts && parts[0].Valid();
    var p, k := parts[0], 1.0 / (1.0 + eps);
    var m := Max(p.xs);
    SoftmaxAt(exp, p.xs, p.vs, m);
    MaxIsMember(p.xs);
    ExpSumAtLeastOne(exp, p.xs, m);
    WeightedSumNonnegative(exp, p.xs, p.vs, m);
    var w, e := WeightedSum(exp, p.xs, p.vs, m), ExpSum(exp, p.xs, m);
    QuotientBounds(w, w, e, eps, 1.0);
    InverseBounds(eps);
    LooserBound(w / e, k);
    assert w / e * 1.0 * k == w / e * k;
  }

  lemma ManyBounds(exp: real -> real, eps: real, parts: seq<Part>)
    requires IsExp(exp) && AllValid(parts) && |parts| > 1 && eps >= 0.0 && NonnegativeValues(parts)
    ensures |Whole(parts).xs| == |Whole(parts).vs|
    ensures var exact, merged := Softmax(exp, Whole(parts).xs, Whole(parts).vs),
                                 Merge(exp, eps, AttendAll(exp, eps, parts));
            exact * (1.0 / (1.0 + eps)) * (1.0 / (1.0 + eps)) <= merged <= exact
  {
    hide IsExp, ExpSum, WeightedSum, Softmax, Max, Whole, RescaledSum, RescaledOut;
    WholeValid(parts);
    var rs, w := AttendAll(exp, eps, parts), Whole(parts);
    MergedSumAtLeastOne(exp, eps, parts);
    var m := Max(MaxLogits(rs));
    RescaledSumWhole(exp, eps, parts, m);
    RescaledOutBounds(exp, eps, parts, m);
    SoftmaxAt(exp, w.xs, w.vs, m);
    InverseBounds(eps);
    QuotientBounds(WeightedSum(exp, w.xs, w.vs, m), RescaledOut(exp, rs, m), ExpSum(exp, w.xs, m), eps,
                   1.0 / (1.0 + eps));
  }

  lemma SquareInverse(a: real, eps: real)
    requires eps >= 0.0
    ensures (1.0 + eps) * (1.0 + eps) > 0.0
    ensures a / ((1.0 + eps) * (1.0 + eps)) == a * (1.0 / (1.0 + eps)) * (1.0 / (1.0 + eps))
  {
    var d, k := 1.0 + eps, 1.0 / (1.0 + eps);
    assert k * d == 1.0;
    assert d * d > 0.0;
    assert a * k * k * (d * d) == a * (k * d) * (k * d) by { Rearrange(a, k, d); }
    DivideExact(a, d * d, a * k * k);
  }

  lemma Rearrange(a: real, k: real, d: real)
    ensures a * k * k * (d * d) == a * (k * d) * (k * d)
  {
    assert k * k * (d * d) == (k * d) * (k * d) by {
      assert k * k * (d * d) == k * (k * (d * d));
      assert k * (d * d) == (k * d) * d;
      assert k * ((k * d) * d) == (k * d) * (k * d);
    }
    assert a * k * k == a * (k * k);
    assert a * (k * k) * (d * d) == a * (k * k * (d * d));
    assert a * ((k * d) * (k * d)) == a * (k * d) * (k * d);
  }

  lemma LooserBound(a: real, k: real)
    requires 0.0 < k <= 1.0
    ensures a >= 0.0 ==> a * k * k <= a * k
  {
    if a >= 0.0 {
      TimesNonnegative(a, k);
      TimesLess(k, 1.0, a * k);
    }
  }

  /** Dividing a sum between `w * k` and `w` by `g + eps` instead of `g`. */
  lemma QuotientBounds(w: real, s: real, g: real, eps: real, k: real)
    requires w >= 0.0 && g >= 1.0 && eps >= 0.0 && 0.0 < k <= 1.0 && w * k <= s <= w
    ensures w / g >= 0.0
    ensures w / g * k * (1.0 / (1.0 + eps)) <= s / (g + eps) <= w / g
  {
    var q, f, h := w / g, Shrink(g, eps), 1.0 / (1.0 + eps);
    assert w == q * g;
    assert q >= 0.0;
    ShrinkBounds(g, eps);
    var d := g + eps;
    assert f * d == g;
    var t := s / d;
    assert t * d == s;
    // w / d == q * f
    assert (q * f) * d == w by { assert q * f * d == q * (f * d); }
    assert t <= q * f by { DivideLess(t, q * f, d); }
    TimesLess(f, 1.0, q);
    assert q * f <= q;
    assert (q * k * f) * d == w * k by { assert q * k * f * d == q * (f * d) * k by { ReorderDiv(q, k, f, d); } }
    assert q * k * f <= t by { DivideLess(q * k * f, t, d); }
    TimesNonnegative(q, k);
    TimesLess(h, f, q * k);
  }

  lemma ReorderDiv(q: real, k: real, f: real, d: real)
    ensures q * k * f * d == q * (f * d) * k
  {
    assert q * k * f * d == q * k * (f * d);
    assert q * k * (f * d) == q * (f * d) * k;
  }

  lemma DivideLess(a: real, b: real, d: real)
    requires d > 0.0 && a * d <= b * d
    ensures a <= b
  {
  }

  // ----- The merging kernel

  lemma InverseIsDivision(a: real, d: real)
    requires d > 0.0
    ensures a * (1.0 / d) == a / d
  {
    var k := 1.0 / d;
    assert k * d == 1.0;
    assert a * k * d == a * (k * d);
    DivideExact(a, d, a * k);
  }

  lemma {:induction false} RescaledSumPositive(exp: real -> real, rs: seq<Partial>, m: real)
    requires IsExp(exp) && (forall r :: r in rs ==> r.expSum > 0.0)
    ensures RescaledSum(exp, rs, m) >= 0.0 && (rs != [] ==> RescaledSum(exp, rs, m) > 0.0)
    decreases |rs|
  {
    hide IsExp;
    if rs != [] {
      var n := |rs| - 1;
      assert rs[n] in rs;
      RescaledSumPositive(exp, rs[..n], m);
      ExpPositive(exp, rs[n].maxLogit - m);
      TimesPositive(rs[n].expSum, exp(rs[n].maxLogit - m));
    }
  }

  lemma TimesPositive(a: real, b: real)
    requires a > 0.0 && b > 0.0
    ensures a * b > 0.0
  {
  }

  method GatherOut(exp: real -> real, rs: seq<Partial>, m: real, sums: seq<real>, inv: real) returns (out: real)
    requires |sums| == |rs| && (forall i :: 0 <= i < |rs| ==> sums[i] == rs[i].expSum * exp(rs[i].maxLogit - m))
    ensures out == RescaledOut(exp, rs, m) * inv
  {
    out := 0.0;
    var k := 0;
    while k < |rs|
      invariant k <= |rs| && out == RescaledOut(exp, rs[..k], m) * inv
    {
      assert rs[..k + 1][..k] == rs[..k];
      Distribute(RescaledOut(exp, rs[..k], m), rs[k].out * sums[k], inv);
      out := out + rs[k].out * sums[k] * inv;
      k := k + 1;
    }
    assert rs[..k] == rs;
  }
}
