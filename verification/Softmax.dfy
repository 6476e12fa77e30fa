/** The in-place softmax of the CPU attention kernels over exact reals (csrc/cpu/attention.cpp:43-117).  The exponential is
    a parameter, of which only its sign and its law of exponents are used. */
module Softmax {
  // Products and quotients have names so that a proof can leave them uninterpreted.
  function Times(a: real, b: real): real { a * b }

  function Over(a: real, b: real): real
    requires b != 0.0
  {
    a / b
  }

  lemma TimesLaws(a: real, b: real, c: real)
    ensures Times(a + b, c) == Times(a, c) + Times(b, c)
    ensures Times(Times(a, b), c) == Times(Times(a, c), b)
    ensures Times(a, b) == Times(b, a) && Times(a, 1.0) == a && Times(0.0, a) == 0.0
    ensures a > 0.0 && b > 0.0 ==> Times(a, b) > 0.0
  {
  }

  lemma OverLaws(a: real, b: real, c: real)
    requires b > 0.0
    ensures Times(Over(a, b), b) == a
    ensures c > 0.0 ==> Times(b, c) > 0.0 && Over(Times(a, c), Times(b, c)) == Over(a, b)
    ensures Times(Over(c, b), a) == Over(Times(c, a), b)
  {
    if c > 0.0 {
      var q := a / b;
      assert a == q * b;
      assert a * c == q * (b * c);
    }
    var r := c / b;
    assert c * a == (r * a) * b;
  }

  ghost predicate IsExp(exp: real -> real) {
    (forall a, b :: exp(a + b) == Times(exp(a), exp(b))) && forall a :: exp(a) > 0.0
  }

  lemma ExpLaw(exp: real -> real, a: real, b: real)
    requires IsExp(exp)
    ensures exp(a + b) == Times(exp(a), exp(b)) && exp(a) > 0.0 && exp(b) > 0.0
  {
  }

  lemma ExpZero(exp: real -> real)
    requires IsExp(exp)
    ensures exp(0.0) == 1.0
  {
    ExpLaw(exp, 0.0, 0.0);
    hide IsExp;
    var one := exp(0.0);
    assert 0.0 + 0.0 == 0.0;
    assert one * (one - 1.0) == 0.0;
  }

  // ---- sums over a row of logits ------------------------------------------------------------------------------

  /** The sum of exp(l[i] - m). */
  ghost function ExpSum(exp: real -> real, l: seq<real>, m: real): real {
    if l == [] then 0.0 else ExpSum(exp, l[..|l| - 1], m) + exp(l[|l| - 1] - m)
  }

  /** The sum of exp(l[i] - m) * v[i]. */
  ghost function Weighted(exp: real -> real, l: seq<real>, v: seq<real>, m: real): real
    requires |v| == |l|
  {
    if l == [] then 0.0
    else Weighted(exp, l[..|l| - 1], v[..|l| - 1], m) + Times(exp(l[|l| - 1] - m), v[|l| - 1])
  }

  /** Softmax attention: the values weighted by the exponentials of the logits. */
  ghost function Attend(exp: real -> real, l: seq<real>, v: seq<real>): real
    requires IsExp(exp) && l != [] && |v| == |l|
  {
    ExpSumPositive(exp, l, 0.0);
    Over(Weighted(exp, l, v, 0.0), ExpSum(exp, l, 0.0))
  }

  lemma {:induction false} ExpSumPositive(exp: real -> real, l: seq<real>, m: real)
    requires IsExp(exp)
    ensures ExpSum(exp, l, m) >= 0.0
    ensures l != [] ==> ExpSum(exp, l, m) > 0.0
  {
    if l != [] {
      ExpSumPositive(exp, l[..|l| - 1], m);
      ExpLaw(exp, l[|l| - 1] - m, 0.0);
    }
  }

  /** Subtracting another number from every logit rescales the sums. */
  lemma {:induction false} ShiftSums(exp: real -> real, l: seq<real>, v: seq<real>, m: real, m': real)
    requires IsExp(exp) && |v| == |l|
    ensures ExpSum(exp, l, m) == Times(ExpSum(exp, l, m'), exp(m' - m))
    ensures Weighted(exp, l, v, m) == Times(Weighted(exp, l, v, m'), exp(m' - m))
  {
    hide Times, IsExp;
    if l == [] {
      TimesLaws(exp(m' - m), 0.0, 0.0);
    } else {
      var n := |l| - 1;
      ShiftSums(exp, l[..n], v[..n], m, m');
      ExpLaw(exp, l[n] - m', m' - m);
      var a, b := exp(l[n] - m'), exp(m' - m);
      assert (l[n] - m') + (m' - m) == l[n] - m;
      TimesLaws(ExpSum(exp, l[..n], m'), a, b);
      TimesLaws(Weighted(exp, l[..n], v[..n], m'), Times(a, v[n]), b);
      TimesLaws(a, b, v[n]);
    }
  }

  /** Softmax does not depend on the number subtracted. */
  lemma AttendShifted(exp: real -> real, l: seq<real>, v: seq<real>, m: real)
    requires IsExp(exp) && l != [] && |v| == |l|
    ensures ExpSum(exp, l, m) > 0.0
    ensures Over(Weighted(exp, l, v, m), ExpSum(exp, l, m)) == Attend(exp, l, v)
    ensures Weighted(exp, l, v, m) == Times(Attend(exp, l, v), ExpSum(exp, l, m))
  {
    hide Times, Over, IsExp;
    ShiftSums(exp, l, v, m, 0.0);
    ExpSumPositive(exp, l, m);
    ExpSumPositive(exp, l, 0.0);
    ExpLaw(exp, 0.0 - m, 0.0);
    hide ExpSum, Weighted;
    OverLaws(Weighted(exp, l, v, 0.0), ExpSum(exp, l, 0.0), exp(0.0 - m));
    OverLaws(Weighted(exp, l, v, m), ExpSum(exp, l, m), 1.0);
  }

  /** Sums over a row split into two parts. */
  lemma {:induction false} SumsSplit(exp: real -> real, l: seq<real>, l': seq<real>, v: seq<real>, v': seq<real>, m: real)
    requires |v| == |l| && |v'| == |l'|
    ensures ExpSum(exp, l + l', m) == ExpSum(exp, l, m) + ExpSum(exp, l', m)
    ensures Weighted(exp, l + l', v + v', m) == Weighted(exp, l, v, m) + Weighted(exp, l', v', m)
  {
    if l' == [] {
      assert l + l' == l && v + v' == v;
    } else {
      var n := |l'| - 1;
      SumsSplit(exp, l, l'[..n], v, v'[..n], m);
      assert (l + l')[..|l| + n] == l + l'[..n] && (v + v')[..|l| + n] == v + v'[..n];
    }
  }

  // ---- the largest logit ----------------------------------------------------------------------------------------

  ghost predicate IsMax(m: real, l: seq<real>) {
    m in l && forall x | x in l :: x <= m
  }

  lemma {:induction false} OneTerm(exp: real -> real, l: seq<real>, m: real)
    requires IsExp(exp) && m in l
    ensures ExpSum(exp, l, m) >= 1.0
  {
    var n := |l| - 1;
    ExpZero(exp);
    ExpSumPositive(exp, l[..n], m);
    ExpLaw(exp, l[n] - m, 0.0);
    if l[n] != m {
      OneTerm(exp, l[..n], m);
    }
  }

  // ---- the methods ------------------------------------------------------------------------------------------------

  /** Probabilities of the first `size` entries, zeros up to `capacity`. */
  ghost predicate Normalised(exp: real -> real, l: seq<real>, after: seq<real>, size: nat, capacity: nat, max: real, sum: real) {
    && |l| == |after| && size <= capacity <= |l|
    && (forall i | 0 <= i < size :: sum != 0.0 && after[i] == Over(exp(l[i] - max), sum))
    && (forall i | size <= i < capacity :: after[i] == 0.0)
    && (forall i | capacity <= i < |l| :: after[i] == l[i])
  }

  /** The second loop of both softmax functions (51-55, 82-86). */
  method Exponentiate(exp: real -> real, data: array<real>, size: nat, max: real) returns (sum: real)
    requires size <= data.Length
    modifies data
    ensures sum == ExpSum(exp, old(data[..size]), max)
    ensures forall k | 0 <= k < size :: data[k] == exp(old(data[k]) - max)
    ensures forall k | size <= k < data.Length :: data[k] == old(data[k])
  {
    ghost var l := data[..];
    sum := 0.0;
    for i := 0 to size
      invariant sum == ExpSum(exp, l[..i], max)
      invariant forall k | 0 <= k < i :: data[k] == exp(l[k] - max)
      invariant forall k | i <= k < data.Length :: data[k] == l[k]
    {
      assert l[..i + 1][..i] == l[..i];
      data[i] := exp(data[i] - max);
      sum := sum + data[i];
    }
    assert l[..size] == old(data[..size]);
  }

  /** The two last loops of both softmax functions (57-64, 88-95), and the last one of `reducePartitonSoftmax` (114-116). */
  method Divide(data: array<real>, size: nat, capacity: nat, sum: real)
    requires size <= capacity <= data.Length && sum != 0.0
    modifies data
    ensures forall k | 0 <= k < size :: data[k] == Over(old(data[k]), sum)
    ensures forall k | size <= k < capacity :: data[k] == 0.0
    ensures forall k | capacity <= k < data.Length :: data[k] == old(data[k])
  {
    hide Over;
    for i := 0 to size
      invariant forall k | 0 <= k < i :: data[k] == Over(old(data[k]), sum)
      invariant forall k | i <= k < data.Length :: data[k] == old(data[k])
    {
      data[i] := Over(data[i], sum);
    }
    for i := size to capacity
      invariant forall k | 0 <= k < size :: data[k] == Over(old(data[k]), sum)
      invariant forall k | size <= k < i :: data[k] == 0.0
      invariant forall k | i <= k < data.Length :: data[k] == old(data[k])
    {
      data[i] := 0.0;
    }
  }

  method Normalise(exp: real -> real, data: array<real>, size: nat, capacity: nat, max: real) returns (sum: real)
    requires IsExp(exp) && 0 < size <= capacity <= data.Length
    modifies data
    ensures sum == ExpSum(exp, old(data[..size]), max) && sum > 0.0
    ensures Normalised(exp, old(data[..]), data[..], size, capacity, max, sum)
  {
    hide IsExp, Over, ExpSum;
    ghost var l := data[..];
    ExpSumPositive(exp, data[..size], max);
    sum := Exponentiate(exp, data, size, max);
    Divide(data, size, capacity, sum);
  }

  /** The first loop of `reduceSoftmax` (46-49) and of `reducePartitonSoftmax` (103-106). */
  method MaxOf(data: array<real>, size: nat) returns (max: real)
    requires 0 < size <= data.Length
    ensures IsMax(max, data[..size])
  {
    max := data[0];
    for i := 1 to size
      invariant IsMax(max, data[..i])
    {
      assert data[..i + 1] == data[..i] + [data[i]];
      max := if max >= data[i] then max else data[i];
    }
  }

  /** `reduceSoftmax` (43-67). */
  method ReduceSoftmax(exp: real -> real, data: array<real>, size: nat, capacity: nat) returns (max: real, sum: real)
    requires IsExp(exp) && 0 < size <= capacity <= data.Length
    modifies data
    ensures IsMax(max, old(data[..size])) && sum == ExpSum(exp, old(data[..size]), max) && sum >= 1.0
    ensures Normalised(exp, old(data[..]), data[..], size, capacity, max, sum)
  {
    hide IsExp, Over, ExpSum;
    max := MaxOf(data, size);
    OneTerm(exp, data[..size], max);
    sum := Normalise(exp, data, size, capacity, max);
  }

  /** The ALiBi bias of the token at `position`. */
  function Bias(slope: real, position: int, contextLen: int): real {
    slope * (position - contextLen + 1) as real
  }

  /** The newest token has no ALiBi bias, and each token one slope less than the token after it. */
  lemma BiasIs(slope: real, position: int, contextLen: int)
    ensures Bias(slope, contextLen - 1, contextLen) == 0.0
    ensures Bias(slope, position, contextLen) == Bias(slope, position + 1, contextLen) - slope
    ensures Bias(slope, position, contextLen) == slope * (position - (contextLen - 1)) as real
  {
    var n := position - contextLen + 1;
    assert (n + 1) as real == n as real + 1.0;
    assert slope * (n as real + 1.0) == slope * n as real + slope;
  }

  /** The logits with their biases. */
  function Biased(l: seq<real>, slope: real, start: int, contextLen: int): (r: seq<real>)
    ensures |r| == |l| && forall i | 0 <= i < |l| :: r[i] == l[i] + Bias(slope, start + i, contextLen)
  {
    if l == [] then []
    else Biased(l[..|l| - 1], slope, start, contextLen) + [l[|l| - 1] + Bias(slope, start + |l| - 1, contextLen)]
  }

  /** `reduceSoftmaxAlibi` (69-98). */
  method ReduceSoftmaxAlibi(exp: real -> real, data: array<real>, size: nat, capacity: nat, alibiSlope: real, startIndex: int,
                            contextLen: int)
    returns (max: real, sum: real)
    requires IsExp(exp) && 0 < size <= capacity <= data.Length
    modifies data
    ensures var l := Biased(old(data[..size]), alibiSlope, startIndex, contextLen);
      && IsMax(max, l) && sum == ExpSum(exp, l, max) && sum >= 1.0
      && Normalised(exp, l + old(data[size..]), data[..], size, capacity, max, sum)
  {
    hide IsExp, Over, ExpSum, Bias;
    ghost var before := data[..];
    ghost var l := Biased(before[..size], alibiSlope, startIndex, contextLen);
    data[0] := data[0] + Bias(alibiSlope, startIndex, contextLen);
    max := data[0];
    for i := 1 to size
      invariant data[..i] == l[..i] && data[i..] == before[i..]
      invariant IsMax(max, data[..i])
    {
      var qk := data[i] + Bias(alibiSlope, startIndex + i, contextLen);
      assert data[i] == data[i..][0] == before[i..][0] == before[..size][i];
      data[i] := qk;
      assert data[..i + 1] == l[..i] + [qk] == l[..i + 1];
      max := if max >= qk then max else qk;
    }
    assert data[..size] == l;
    assert data[..] == l + before[size..];
    OneTerm(exp, l, max);
    sum := Normalise(exp, data, size, capacity, max);
  }

  // ---- combining partitions -------------------------------------------------------------------------------------

  lemma WeightedNone(exp: real -> real, l: seq<real>, v: seq<real>, m: real)
    ensures Weighted(exp, l[..0], [], m) == 0.0
  {
  }

  lemma WeightedNext(exp: real -> real, l: seq<real>, v: seq<real>, i: nat, m: real)
    requires i < |l| && i < |v|
    ensures Weighted(exp, l[..i + 1], v[..i + 1], m) == Weighted(exp, l[..i], v[..i], m) + Times(exp(l[i] - m), v[i])
  {
    assert l[..i + 1][..i] == l[..i] && v[..i + 1][..i] == v[..i];
  }

  const EPSILON: real := 0.00000001

  /** `reducePartitonSoftmax` (100-117): the sums become the factors of the partitions' outputs. */
  method ReducePartitionSoftmax(exp: real -> real, maxData: array<real>, sumData: array<real>, size: nat) returns (ghost max: real)
    requires IsExp(exp) && 0 < size <= maxData.Length && size <= sumData.Length && maxData != sumData
    requires forall i | 0 <= i < size :: sumData[i] > 0.0
    modifies sumData
    ensures IsMax(max, maxData[..size])
    ensures var total := Weighted(exp, maxData[..size], old(sumData[..size]), max);
      && total > 0.0
      && forall i | 0 <= i < size :: sumData[i] == Over(Times(old(sumData[i]), exp(maxData[i] - max)), total + EPSILON)
    ensures forall i | size <= i < sumData.Length :: sumData[i] == old(sumData[i])
  {
    hide IsExp, Over, Times, Weighted;
    var m := MaxOf(maxData, size);
    max := m;
    var rescaledSum := Rescale(exp, maxData, sumData, size, m);
    Divide(sumData, size, size, rescaledSum + EPSILON);
  }

  /** The loop that rescales the sums of the partitions to one maximum (108-113). */
  method Rescale(exp: real -> real, maxData: array<real>, sumData: array<real>, size: nat, max: real) returns (rescaledSum: real)
    requires IsExp(exp) && 0 < size <= maxData.Length && size <= sumData.Length && maxData != sumData
    requires forall i | 0 <= i < size :: sumData[i] > 0.0
    modifies sumData
    ensures rescaledSum == Weighted(exp, maxData[..size], old(sumData[..size]), max) && rescaledSum > 0.0
    ensures forall k | 0 <= k < size :: sumData[k] == Times(old(sumData[k]), exp(maxData[k] - max))
    ensures forall k | size <= k < sumData.Length :: sumData[k] == old(sumData[k])
  {
    hide IsExp, Times, Weighted;
    ghost var maxs, sums := maxData[..], sumData[..];
    rescaledSum := 0.0;
    WeightedNone(exp, maxs, sums, max);
    for i := 0 to size
      invariant rescaledSum == Weighted(exp, maxs[..i], sums[..i], max) >= 0.0 && (i > 0 ==> rescaledSum > 0.0)
      invariant forall k | 0 <= k < i :: sumData[k] == Times(sums[k], exp(maxs[k] - max))
      invariant forall k | i <= k < sumData.Length :: sumData[k] == sums[k]
    {
      var rescaleFactor := exp(maxData[i] - max);
      ExpLaw(exp, maxData[i] - max, 0.0);
      WeightedNext(exp, maxs, sums, i, max);
      TimesLaws(rescaleFactor, sumData[i], 0.0);
      rescaledSum := rescaledSum + Times(rescaleFactor, sumData[i]);
      sumData[i] := Times(sumData[i], rescaleFactor);
    }
    assert sums[..size] == old(sumData[..size]) && maxs[..size] == maxData[..size];
  }
}
