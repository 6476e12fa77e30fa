/** Attention over a context split into partitions, and what recombining them costs (csrc/cpu/attention.cpp:433-646). */
module Partitions {
  import opened Softmax
  import opened Sums
  import Arithmetic

  /** Where partition `p` starts, the last one ending with the context. */
  function Cut(p: nat, size: nat, contextLen: nat): nat {
    if p * size < contextLen then p * size else contextLen
  }

  function Part<T>(l: seq<T>, p: nat, size: nat): (r: seq<T>)
    ensures |r| == Cut(p + 1, size, |l|) - Cut(p, size, |l|)
  {
    CutsGrow(p, size, |l|);
    l[Cut(p, size, |l|)..Cut(p + 1, size, |l|)]
  }

  lemma CutsGrow(p: nat, size: nat, contextLen: nat)
    ensures Cut(p, size, contextLen) <= Cut(p + 1, size, contextLen) <= contextLen
    ensures p * size < contextLen && size > 0 ==> Cut(p, size, contextLen) < Cut(p + 1, size, contextLen)
  {
    assert (p + 1) * size == p * size + size;
  }

  lemma PartExtends<T>(l: seq<T>, p: nat, size: nat)
    ensures Cut(p, size, |l|) <= |l| && Cut(p + 1, size, |l|) <= |l|
    ensures l[..Cut(p, size, |l|)] + Part(l, p, size) == l[..Cut(p + 1, size, |l|)]
  {
    CutsGrow(p, size, |l|);
  }

  lemma NoPart<T>(l: seq<T>, size: nat)
    ensures l[..Cut(0, size, |l|)] == []
  {
  }

  /** The values weighted by the probabilities of the row are its attention. */
  lemma {:induction false} ProbabilitiesAttend(exp: real -> real, l: seq<real>, v: seq<real>, m: real, sum: real, f: int -> real, n: nat)
    requires |v| == |l| && n <= |l| && sum > 0.0
    requires forall i | 0 <= i < n :: f(i) == Times(Over(exp(l[i] - m), sum), v[i])
    ensures Sum(f, n) == Over(Weighted(exp, l[..n], v[..n], m), sum)
  {
    hide Times, Over;
    if n == 0 {
      OverZero(sum);
    } else {
      ProbabilitiesAttend(exp, l, v, m, sum, f, n - 1);
      WeightedNext(exp, l, v, n - 1, m);
      hide Weighted;
      OverLaws(v[n - 1], sum, exp(l[n - 1] - m));
      OverAdds(Weighted(exp, l[..n - 1], v[..n - 1], m), Times(exp(l[n - 1] - m), v[n - 1]), sum);
    }
  }

  lemma OverZero(s: real)
    requires s > 0.0
    ensures Over(0.0, s) == 0.0
  {
  }

  lemma OverAdds(a: real, b: real, s: real)
    requires s > 0.0
    ensures Over(a + b, s) == Over(a, s) + Over(b, s)
  {
    var x, y := a / s, b / s;
    assert a + b == (x + y) * s;
  }

  lemma SoftmaxAttends(exp: real -> real, l: seq<real>, v: seq<real>, m: real, f: int -> real)
    requires IsExp(exp) && l != [] && |v| == |l| && ExpSum(exp, l, m) > 0.0
    requires forall i | 0 <= i < |l| :: f(i) == Times(Over(exp(l[i] - m), ExpSum(exp, l, m)), v[i])
    ensures Sum(f, |l|) == Attend(exp, l, v)
  {
    hide IsExp, Times, Over, ExpSum, Weighted;
    ProbabilitiesAttend(exp, l, v, m, ExpSum(exp, l, m), f, |l|);
    assert l[..|l|] == l && v[..|l|] == v;
    AttendShifted(exp, l, v, m);
  }

  // ---- the partitions together ------------------------------------------------------------------------------------

  /** The maxima and sums that the partitions leave behind (519-528). */
  ghost predicate Statistics(exp: real -> real, l: seq<real>, size: nat, n: nat, maxs: seq<real>, sums: seq<real>) {
    && |maxs| >= n && |sums| >= n
    && forall p: nat | p < n :: IsMax(maxs[p], Part(l, p, size)) && sums[p] == ExpSum(exp, Part(l, p, size), maxs[p])
  }

  /** The first `n` partitions, rescaled to `m`, sum up the first part of the row. */
  lemma {:induction false} RescaledSums(exp: real -> real, l: seq<real>, v: seq<real>, size: nat, n: nat, maxs: seq<real>,
                                        sums: seq<real>, m: real)
    requires IsExp(exp) && |v| == |l| && Statistics(exp, l, size, n, maxs, sums)
    ensures Weighted(exp, maxs[..n], sums[..n], m) == ExpSum(exp, l[..Cut(n, size, |l|)], m)
  {
    hide IsExp, Times, Weighted, ExpSum, Cut, Part;
    if n == 0 {
      NoPart(l, size);
      NoSums(exp, maxs, sums, m);
    } else {
      var p := n - 1;
      var part, values := Part(l, p, size), Part(v, p, size);
      RescaledSums(exp, l, v, size, p, maxs, sums, m);
      WeightedNext(exp, maxs, sums, p, m);
      PartExtends(l, p, size);
      PartExtends(v, p, size);
      ShiftSums(exp, part, values, m, maxs[p]);
      SumsSplit(exp, l[..Cut(p, size, |l|)], part, v[..Cut(p, size, |l|)], values, m);
      TimesLaws(sums[p], exp(maxs[p] - m), 0.0);
    }
  }

  lemma NoSums(exp: real -> real, maxs: seq<real>, sums: seq<real>, m: real)
    ensures Weighted(exp, maxs[..0], sums[..0], m) == 0.0 == ExpSum(exp, [], m)
  {
  }

  /** The outputs of the first `n` partitions, each rescaled by its factor, weight the first part of the row. */
  lemma {:induction false} RescaledOutputs(exp: real -> real, l: seq<real>, v: seq<real>, size: nat, n: nat, maxs: seq<real>,
                                           sums: seq<real>,
                                           m: real, total: real, g: int -> real)
    requires IsExp(exp) && |v| == |l| && size > 0 && Statistics(exp, l, size, n, maxs, sums) && total > 0.0
    requires forall p: nat | p < n :: Part(l, p, size) != []
    requires forall p: nat | p < n ::
      g(p) == Times(Attend(exp, Part(l, p, size), Part(v, p, size)), Over(Times(sums[p], exp(maxs[p] - m)), total))
    ensures Sum(g, n) == Over(Weighted(exp, l[..Cut(n, size, |l|)], v[..Cut(n, size, |l|)], m), total)
  {
    hide IsExp, Times, Over, Weighted, ExpSum, Attend, Cut, Part, IsMax;
    if n == 0 {
      NoPart(l, size);
      NoPart(v, size);
      NoWeights(exp, m);
      OverZero(total);
    } else {
      var p := n - 1;
      var part, values, a := Part(l, p, size), Part(v, p, size), Cut(p, size, |l|);
      RescaledOutputs(exp, l, v, size, p, maxs, sums, m, total, g);
      PartExtends(l, p, size);
      PartExtends(v, p, size);
      ShiftSums(exp, part, values, m, maxs[p]);
      AttendShifted(exp, part, values, maxs[p]);
      SumsSplit(exp, l[..a], part, v[..a], values, m);
      OnePart(Attend(exp, part, values), sums[p], exp(maxs[p] - m), total);
      OverAdds(Weighted(exp, l[..a], v[..a], m), Weighted(exp, part, values, m), total);
    }
  }

  lemma NoWeights(exp: real -> real, m: real)
    ensures Weighted(exp, [], [], m) == 0.0
  {
  }

  lemma OnePart(output: real, sum: real, factor: real, total: real)
    requires total > 0.0
    ensures Times(output, Over(Times(sum, factor), total)) == Over(Times(Times(output, sum), factor), total)
  {
    var share := sum * factor / total;
    assert sum * factor == share * total;
    assert (output * sum) * factor == output * (sum * factor) == (output * share) * total;
  }

  /** Partitioned attention is exact attention, shrunk by S / (S + 1e-8) where S >= 1 is the sum of the exponentials. */
  lemma PartitionsAttend(exp: real -> real, l: seq<real>, v: seq<real>, size: nat, n: nat, maxs: seq<real>, sums: seq<real>, m: real,
                         g: int -> real)
    requires IsExp(exp) && l != [] && |v| == |l| && size > 0 && (n - 1) * size < |l| <= n * size && n > 0
    requires Statistics(exp, l, size, n, maxs, sums) && IsMax(m, maxs[..n])
    requires var total := Weighted(exp, maxs[..n], sums[..n], m) + EPSILON;
      total > 0.0 && forall p: nat | p < n ::
        Part(l, p, size) != []
        && g(p) == Times(Attend(exp, Part(l, p, size), Part(v, p, size)), Over(Times(sums[p], exp(maxs[p] - m)), total))
    ensures IsMax(m, l) && ExpSum(exp, l, m) >= 1.0
    ensures Sum(g, n) == Shrunk(Attend(exp, l, v), ExpSum(exp, l, m))
  {
    hide IsExp, Times, Over, Weighted, ExpSum, Attend, Statistics;
    assert Cut(n, size, |l|) == |l| && l[..|l|] == l && v[..|l|] == v;
    RescaledSums(exp, l, v, size, n, maxs, sums, m);
    MaxOfParts(exp, l, size, n, maxs, sums, m);
    OneTerm(exp, l, m);
    AttendShifted(exp, l, v, m);
    RescaledOutputs(exp, l, v, size, n, maxs, sums, m, ExpSum(exp, l, m) + EPSILON, g);
  }

  lemma MaxOfParts(exp: real -> real, l: seq<real>, size: nat, n: nat, maxs: seq<real>, sums: seq<real>, m: real)
    requires Statistics(exp, l, size, n, maxs, sums) && IsMax(m, maxs[..n]) && size > 0 && |l| <= n * size
    ensures IsMax(m, l)
  {
    hide ExpSum, Cut;
    var k :| 0 <= k < |maxs[..n]| && maxs[..n][k] == m;
    assert IsMax(maxs[k], Part(l, k, size));
    PartIn(l, k, size);
    forall x | x in l ensures x <= m {
      var p := InPart(l, x, size, n);
      assert IsMax(maxs[p], Part(l, p, size));
      assert maxs[..n][p] == maxs[p];
      assert maxs[p] in maxs[..n];
    }
  }

  lemma PartIn<T>(l: seq<T>, p: nat, size: nat)
    ensures forall x | x in Part(l, p, size) :: x in l
  {
    CutsGrow(p, size, |l|);
  }

  lemma InPart(l: seq<real>, x: real, size: nat, n: nat) returns (p: nat)
    requires size > 0 && |l| <= n * size && x in l
    ensures p < n && x in Part(l, p, size)
  {
    var i :| 0 <= i < |l| && l[i] == x;
    p := PartOf(i, size, n, |l|);
    assert Part(l, p, size)[i - Cut(p, size, |l|)] == x;
  }

  lemma PartOf(i: nat, size: nat, n: nat, contextLen: nat) returns (p: nat)
    requires size > 0 && i < contextLen <= n * size
    ensures p < n && Cut(p, size, contextLen) <= i < Cut(p + 1, size, contextLen)
  {
    p := i / size;
    assert i == size * p + i % size;
    assert (p + 1) * size == p * size + size;
    Arithmetic.LessFactor(p, n, size);
  }

  /** What the term 1e-8 does to an output. */
  function Shrunk(output: real, sum: real): real
    requires sum >= 1.0
  {
    Over(Times(output, sum), sum + EPSILON)
  }

  function Abs(a: real): real { if a < 0.0 then -a else a }

  /** `shrunk` is `output` times sum / (sum + 1e-8). */
  ghost predicate ShrunkBy(output: real, sum: real, shrunk: real) {
    sum >= 1.0 && shrunk * (sum + 0.00000001) == output * sum
  }

  /** The relative error of partitioned attention is at most 1e-8. */
  lemma ShrunkBound(output: real, sum: real)
    requires sum >= 1.0
    ensures ShrunkBy(output, sum, Shrunk(output, sum))
    ensures Abs(Shrunk(output, sum) - output) <= 0.00000001 * Abs(output)
    ensures Abs(Shrunk(output, sum)) <= Abs(output)
    ensures output != 0.0 <==> Shrunk(output, sum) != output
  {
    var d := sum + EPSILON;
    var r := Shrunk(output, sum);
    assert r * d == output * sum;
    assert (output - r) * d == output * EPSILON;
    Quotient(output - r, output, EPSILON, d);
    Quotient(r, output, sum, d);
  }

  lemma Quotient(a: real, b: real, s: real, d: real)
    requires 0.0 < s <= d && d >= 1.0 && a * d == b * s
    ensures Abs(a) <= s * Abs(b) && Abs(a) <= Abs(b)
    ensures b != 0.0 ==> a != 0.0
  {
    var x, y := Abs(a), Abs(b);
    assert x * d == y * s;
    assert x * d >= x;
    assert y * s <= y * d;
    if x > y {
      PositiveProduct(x - y, d);
    }
  }

  lemma PositiveProduct(a: real, d: real)
    requires a > 0.0 && d >= 1.0
    ensures a * d > 0.0
  {
  }
}
