/** Division facts about natural numbers that the solver needs spelled out. */
module Arithmetic {
  lemma MulGap(d: nat, a: nat, b: nat)
    requires a > b
    ensures d * a >= d * b + d
  {
    assert d * a == d * b + d * (a - b);
    assert d * (a - b) == d + d * (a - b - 1);
  }

  /** `q` and `r` are the quotient and the remainder of `q * d + r`. */
  lemma DivMod(q: nat, r: nat, d: nat)
    requires r < d
    ensures (q * d + r) / d == q && (q * d + r) % d == r
  {
    var x := q * d + r;
    var y := x / d;
    assert x == d * y + x % d;
    if y < q {
      MulGap(d, q, y);
    } else if y > q {
      MulGap(d, y, q);
    }
  }

  lemma DivModOf(x: nat, d: nat)
    requires d > 0
    ensures x == (x / d) * d + x % d && 0 <= x % d < d && 0 <= x / d
  {
  }

  lemma MulAtLeast(a: nat, b: nat, m: nat)
    requires a <= b
    ensures a * m <= b * m
  {
    assert b * m == a * m + (b - a) * m;
  }

  lemma LessFactor(a: nat, b: nat, m: nat)
    requires a * m < b * m
    ensures a < b
  {
    if a >= b {
      MulAtLeast(b, a, m);
    }
  }
}
